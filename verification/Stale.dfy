/** A head older than one already polled: what the groups in between leave in the rows. */
module Stale {
  import opened Field
  import opened Imt
  import opened Chain
  import opened Ingest
  import opened Correlation
  import opened Effects
  import opened Replay
  import opened Views
  import opened Durable
  import opened Runs
  import opened Machine
  import opened Gated
  import F = Feed
  import FL = LedgerTables
  import K = Kem
  import KT = KemTables
  import M = Mirror
  import R = Registry

  // ---- the frontier tells leaf groups apart ------------------------------------------

  /** No group from `h` to `d` inserts anything: they are registry transitions and chunk accepts. */
  ghost predicate Leafless(gs: seq<Group>, h: nat, d: nat)
    requires h <= d <= |gs|
  {
    forall j :: h <= j < d ==> !HasLeaves(gs[j])
  }

  lemma {:induction false} FrontierAscends(rows: seq<Row>, a: nat)
    requires Grown(rows) && a <= |rows|
    ensures Grown(rows[..a]) && NextOf(rows[..a]) <= NextOf(rows)
    ensures a < |rows| ==> NextOf(rows[..a]) < NextOf(rows)
  {
    if a == |rows| {
      assert rows[..a] == rows;
    } else {
      var init, last := rows[..|rows| - 1], rows[|rows| - 1];
      FrontierAscends(init, a);
      assert init[..a] == rows[..a];
      PaddedIsBoundary(NextOf(init));
    }
  }

  lemma AllGrown(gs: seq<Group>)
    requires AllWellFormed(gs) && Truthful([], Flatten(gs))
    ensures Grown(RowsUpTo(gs, |gs|))
  {
    TruthfulBetween(gs, 0, |gs|);
  }

  /** The next leaf index tells how many inserts a mirror has. */
  lemma FrontierTells(gs: seq<Group>, p: nat, n: nat)
    requires AllWellFormed(gs) && n <= |gs| && Truthful([], Flatten(gs)) && p <= |RowsUpTo(gs, |gs|)|
    ensures |RowsUpTo(gs, n)| <= |RowsUpTo(gs, |gs|)|
    ensures NextOf(RowsUpTo(gs, |gs|)[..p]) <= NextOf(RowsUpTo(gs, n)) <==> p <= |RowsUpTo(gs, n)|
    ensures NextOf(RowsUpTo(gs, |gs|)[..p]) == NextOf(RowsUpTo(gs, n)) <==> p == |RowsUpTo(gs, n)|
  {
    hide WellFormed, RowsUpTo, Truthful, Flatten, NextOf, Grown;
    var all, r := RowsUpTo(gs, |gs|), |RowsUpTo(gs, n)|;
    AllGrown(gs);
    RowsArePrefix(gs, n, |gs|);
    FrontierAscends(all, p);
    FrontierAscends(all, r);
    if p <= r {
      assert all[..r][..p] == all[..p];
      FrontierAscends(all[..r], p);
    } else {
      assert all[..p][..r] == all[..r];
      FrontierAscends(all[..p], r);
    }
  }

  lemma {:induction false} NoRowsNoLeaves(gs: seq<Group>, h: nat, d: nat)
    requires AllWellFormed(gs) && h <= d <= |gs|
    ensures |RowsUpTo(gs, h)| <= |RowsUpTo(gs, d)|
    ensures |RowsUpTo(gs, h)| == |RowsUpTo(gs, d)| <==> Leafless(gs, h, d)
  {
    hide WellFormed, GroupRows, HasLeaves;
    if h < d {
      NoRowsNoLeaves(gs, h, d - 1);
      RowsOrNone(gs[d - 1]);
    }
  }

  lemma RowsOrNone(g: Group)
    requires WellFormed(g)
    ensures HasLeaves(g) <==> GroupRows(g) != []
  {
    RowsOfGroup(g);
  }

  // ---- what a leafless group does to the clean run -----------------------------------

  /** A leafless group's log is not a tree event, and its effect is on its own store. */
  lemma LeaflessStep(gs: seq<Group>, n: nat)
    requires AllWellFormed(gs) && n < |gs| && !HasLeaves(gs[n])
    requires ChainOk(gs)
    ensures var m, m', g := Clean(gs, n), Clean(gs, n + 1), gs[n];
            && m'.tree == m.tree && m'.feed == m.feed && m'.ledger == m.ledger
            && (g.RegistryGroup? ==>
                  && m'.kem == m.kem && R.IsRegistered(m.modules, g.moduleAddr) != g.registered
                  && m'.modules.byAddress == m.modules.byAddress[g.moduleAddr := g.registered])
            && (g.AcceptGroup? ==>
                  && m'.modules == m.modules
                  && m'.kem == K.AcceptChunk(m.kem, AcceptOf(g)).0 && K.AcceptChunk(m.kem, AcceptOf(g)).1
                  && AcceptOf(g).key !in m.kem.seen)
  {
    hide GroupEffect, WellFormed, RowsUpTo, Synced, Truthful;
    var m, g := Clean(gs, n), gs[n];
    CleanUnfolds(gs, n + 1);
    CleanIsSynced(gs, n);
    ParamsOk(gs);
    NextIsFresh(m, gs, n);
    InsertedSame(m, g);
    OkFits(gs, n);
    OkStream(m, g);
    StreamShape(m, g);
  }

  function AcceptOf(g: Group): K.Accept
    requires WellFormed(g) && g.AcceptGroup?
  {
    K.Accept(g.batchId, g.chunkIndex, g.data, GroupKey(g))
  }

  lemma InsertedSame(m: Mem, g: Group)
    requires WellFormed(g) && !HasLeaves(g)
    ensures Inserted(m, g) == m
  {
    assert LogsOf(g) == [MainLog(g)] && TreeStep(m.tree, MainLog(g)) == (m.tree, true);
    assert [MainLog(g)][1..] == [] && Pass1(m.tree, []) == (m.tree, true);
  }

  lemma OkStream(m: Mem, g: Group)
    requires K.Valid(m.kem) && WellFormed(g) && !HasLeaves(g) && GroupOk(m, g)
    ensures g.RegistryGroup? ==> R.Apply(m.modules, GroupKey(g), g.moduleAddr, g.registered).1
    ensures g.AcceptGroup? ==> K.AcceptChunk(m.kem, AcceptOf(g)).1
  {
  }

  // ---- the registry's rows -----------------------------------------------------------

  /** How many transitions of module `a` lie between. */
  function Transitions(gs: seq<Group>, h: nat, d: nat, a: Address): nat
    requires h <= d <= |gs|
  {
    if h == d then 0
    else Transitions(gs, h, d - 1, a) + if gs[d - 1].RegistryGroup? && gs[d - 1].moduleAddr == a then 1 else 0
  }

  lemma {:induction false} HasTransition(gs: seq<Group>, h: nat, d: nat, j: nat)
    requires h <= j < d <= |gs| && gs[j].RegistryGroup?
    ensures Transitions(gs, h, d, gs[j].moduleAddr) > 0
  {
    if j < d - 1 {
      HasTransition(gs, h, d - 1, j);
    }
  }

  lemma {:induction false} FindTransition(gs: seq<Group>, h: nat, d: nat, a: Address) returns (j: nat)
    requires h <= d <= |gs| && Transitions(gs, h, d, a) > 0
    ensures h <= j < d && gs[j].RegistryGroup? && gs[j].moduleAddr == a && Transitions(gs, h, j, a) == 0
  {
    if Transitions(gs, h, d - 1, a) > 0 {
      j := FindTransition(gs, h, d - 1, a);
    } else {
      j := d - 1;
    }
  }

  /** A balanced stream flips a module's flag with each transition. */
  lemma {:induction false} FlagsMove(gs: seq<Group>, h: nat, d: nat, a: Address)
    requires AllWellFormed(gs) && h <= d <= |gs|
    requires ChainOk(gs) && Leafless(gs, h, d)
    ensures var was, now := Clean(gs, h).modules, Clean(gs, d).modules;
            && (R.IsKnown(now, a) <==> R.IsKnown(was, a) || Transitions(gs, h, d, a) > 0)
            && (R.IsRegistered(now, a) <==> (R.IsRegistered(was, a) <==> Transitions(gs, h, d, a) % 2 == 0))
  {
    hide WellFormed, ChainOk, Clean, K.AcceptChunk;
    if h < d {
      FlagsMove(gs, h, d - 1, a);
      LeaflessStep(gs, d - 1);
    }
  }

  ghost predicate ModulesSettled(gs: seq<Group>, h: nat, d: nat)
    requires AllWellFormed(gs) && h <= d <= |gs|
  {
    forall j :: h <= j < d && gs[j].RegistryGroup? ==>
      R.IsKnown(Clean(gs, h).modules, gs[j].moduleAddr) && Transitions(gs, h, d, gs[j].moduleAddr) % 2 == 0
  }

  lemma ModulesMove(gs: seq<Group>, h: nat, d: nat)
    requires AllWellFormed(gs) && h <= d <= |gs|
    requires ChainOk(gs) && Leafless(gs, h, d)
    ensures Clean(gs, d).modules.byAddress == Clean(gs, h).modules.byAddress <==> ModulesSettled(gs, h, d)
  {
    hide WellFormed, ChainOk, Clean, Leafless;
    var was, now := Clean(gs, h).modules, Clean(gs, d).modules;
    if now.byAddress == was.byAddress {
      forall j | h <= j < d && gs[j].RegistryGroup?
        ensures R.IsKnown(was, gs[j].moduleAddr) && Transitions(gs, h, d, gs[j].moduleAddr) % 2 == 0
      {
        FlagsMove(gs, h, d, gs[j].moduleAddr);
        HasTransition(gs, h, d, j);
      }
    }
    if ModulesSettled(gs, h, d) {
      forall a
        ensures (a in now.byAddress <==> a in was.byAddress)
        ensures (a in was.byAddress ==> now.byAddress[a] == was.byAddress[a])
      {
        FlagsMove(gs, h, d, a);
        if Transitions(gs, h, d, a) > 0 {
          var j := FindTransition(gs, h, d, a);
        }
      }
    }
  }

  // ---- the chunk store's rows --------------------------------------------------------

  /** The accept is for a chunk of a known batch that is not accepted yet. */
  predicate Opens(s: K.State, g: Group)
    requires K.Valid(s) && g.AcceptGroup?
  {
    && g.batchId in s.batches && 0 <= g.chunkIndex < |s.batches[g.batchId].accepted|
    && !s.batches[g.batchId].accepted[g.chunkIndex]
  }

  lemma {:induction false} ChunksAdvance(gs: seq<Group>, h: nat, d: nat)
    requires AllWellFormed(gs) && h <= d <= |gs|
    requires ChainOk(gs) && Leafless(gs, h, d)
    ensures K.AllAdvance(Clean(gs, h).kem, Clean(gs, d).kem)
    ensures Clean(gs, d).kem.batches.Keys == Clean(gs, h).kem.batches.Keys
  {
    hide WellFormed, ChainOk, Clean, K.AcceptChunk;
    if h < d {
      ChunksAdvance(gs, h, d - 1);
      LeaflessStep(gs, d - 1);
      if gs[d - 1].AcceptGroup? {
        K.AcceptKeeps(Clean(gs, d - 1).kem, AcceptOf(gs[d - 1]));
        SameBatches(Clean(gs, d - 1).kem, AcceptOf(gs[d - 1]));
      }
    }
  }

  lemma SameBatches(s: K.State, a: K.Accept)
    requires K.Valid(s)
    ensures K.AcceptChunk(s, a).0.batches.Keys == s.batches.Keys
  {
  }

  lemma OpensIff(s: K.State, g: Group)
    requires K.Valid(s) && WellFormed(g) && g.AcceptGroup? && AcceptOf(g).key !in s.seen
    requires K.AcceptChunk(s, AcceptOf(g)).1
    ensures var s' := K.AcceptChunk(s, AcceptOf(g)).0;
            && (!Opens(s, g) <==> s'.batches == s.batches)
            && (Opens(s, g) ==> !Opens(s', g))
            && (g.batchId in s.batches && 0 <= g.chunkIndex < |s.batches[g.batchId].accepted| ==>
                  s'.batches[g.batchId].accepted[g.chunkIndex])
  {
    if Opens(s, g) {
      assert K.AcceptChunk(s, AcceptOf(g)).0.batches[g.batchId].accepted[g.chunkIndex];
    }
  }

  /** Whatever lies between is accepted by `d`. */
  lemma {:induction false} AcceptedBy(gs: seq<Group>, h: nat, d: nat, j: nat)
    requires AllWellFormed(gs) && h <= j < d <= |gs| && gs[j].AcceptGroup?
    requires ChainOk(gs) && Leafless(gs, h, d)
    ensures !Opens(Clean(gs, d).kem, gs[j])
  {
    hide WellFormed, ChainOk, Clean, K.AcceptChunk;
    LeaflessStep(gs, j);
    OpensIff(Clean(gs, j).kem, gs[j]);
    ChunksAdvance(gs, j + 1, d);
    ChunksAdvance(gs, h, j);
  }

  ghost predicate ChunksSettled(gs: seq<Group>, h: nat, d: nat)
    requires AllWellFormed(gs) && h <= d <= |gs|
  {
    forall j :: h <= j < d && gs[j].AcceptGroup? ==> !Opens(Clean(gs, h).kem, gs[j])
  }

  lemma {:induction false} ChunksMove(gs: seq<Group>, h: nat, d: nat)
    requires AllWellFormed(gs) && h <= d <= |gs|
    requires ChainOk(gs) && Leafless(gs, h, d)
    ensures Clean(gs, d).kem.batches == Clean(gs, h).kem.batches <==> ChunksSettled(gs, h, d)
  {
    hide WellFormed, ChainOk, Clean, K.AcceptChunk;
    if h < d {
      ChunksMove(gs, h, d - 1);
      LeaflessStep(gs, d - 1);
      if gs[d - 1].AcceptGroup? {
        OpensIff(Clean(gs, d - 1).kem, gs[d - 1]);
        AcceptedBy(gs, h, d, d - 1);
      }
      if !ChunksSettled(gs, h, d) {
        var j :| h <= j < d && gs[j].AcceptGroup? && Opens(Clean(gs, h).kem, gs[j]);
        AcceptedBy(gs, h, d, j);
      }
    }
  }

  // ---- the rows, all of them ---------------------------------------------------------

  /** The groups between leave the rows as they are: every module in between was known and went
      through an even number of transitions, and every accept was for nothing new. */
  ghost predicate Settled(gs: seq<Group>, h: nat, d: nat)
    requires AllWellFormed(gs) && h <= d <= |gs|
  {
    ModulesSettled(gs, h, d) && ChunksSettled(gs, h, d)
  }

  lemma {:induction false} LeaflessStores(gs: seq<Group>, h: nat, d: nat)
    requires AllWellFormed(gs) && h <= d <= |gs|
    requires ChainOk(gs) && Leafless(gs, h, d)
    ensures var was, now := Clean(gs, h), Clean(gs, d);
            now.tree == was.tree && now.feed == was.feed && now.ledger == was.ledger
  {
    hide WellFormed, ChainOk, Clean, K.AcceptChunk;
    if h < d {
      LeaflessStores(gs, h, d - 1);
      LeaflessStep(gs, d - 1);
    }
  }

  lemma DumpTells(a: K.State, b: K.State)
    requires K.Valid(a) && K.Valid(b)
    ensures KT.Dump(a) == KT.Dump(b) <==> a.batches == b.batches
  {
    hide KT.Dump, KT.Boot;
    KT.BootRestores(a);
    KT.BootRestores(b);
    if a.batches == b.batches {
      DumpOfBatches(a, b);
    }
  }

  lemma DumpOfBatches(a: K.State, b: K.State)
    requires K.Valid(a) && K.Valid(b) && a.batches == b.batches
    ensures KT.Dump(a) == KT.Dump(b)
  {
  }

  /** The rows of `d` groups are those of `h` exactly when the leafless groups in between settle. */
  lemma DumpMoves(gs: seq<Group>, h: nat, d: nat, block: int)
    requires AllWellFormed(gs) && h <= d <= |gs|
    requires ChainOk(gs) && Leafless(gs, h, d)
    ensures Dump(Clean(gs, d), block) == Dump(Clean(gs, h), block) <==> Settled(gs, h, d)
  {
    hide WellFormed, ChainOk, Clean, Leafless, ModulesSettled, ChunksSettled, KT.Dump, F.Dump, FL.Dump, M.LeafTable;
    LeaflessStores(gs, h, d);
    ModulesMove(gs, h, d);
    ChunksMove(gs, h, d);
    DumpTells(Clean(gs, d).kem, Clean(gs, h).kem);
  }

  // ---- read again after a reboot -----------------------------------------------------

  /** Every module in between went through an even number of transitions. */
  ghost predicate AllEven(gs: seq<Group>, h: nat, d: nat, j: nat)
    requires h <= j <= d <= |gs|
  {
    forall i :: h <= i < j && gs[i].RegistryGroup? ==> Transitions(gs, h, d, gs[i].moduleAddr) % 2 == 0
  }

  /** The groups from `h` to `j` applied a second time, on top of all of them, with no replay key left. */
  ghost predicate Reread(gs: seq<Group>, m: Mem, r: Mem, h: nat, d: nat, j: nat)
    requires AllWellFormed(gs) && h <= j <= d <= |gs|
  {
    && r.tree == m.tree && r.feed == m.feed && r.ledger == m.ledger && r.kem.batches == m.kem.batches
    && r.modules.byAddress.Keys == m.modules.byAddress.Keys && SeenWithin(r, gs, j)
    && forall a :: R.IsRegistered(r.modules, a)
                   <==> R.IsRegistered(if Transitions(gs, h, j, a) == 0 then m.modules else Clean(gs, j).modules, a)
  }

  /** One more group re-read: a chunk accept finds its chunk accepted, a transition throws exactly when
      it is its module's first and the module's count is odd; thrown or not, the flags are then those of
      the stream so far. */
  lemma RereadStep(gs: seq<Group>, m: Mem, r: Mem, h: nat, d: nat, j: nat)
    requires AllWellFormed(gs) && h <= j < d <= |gs| && K.Valid(r.kem)
    requires ChainOk(gs) && Leafless(gs, h, d) && Reread(gs, m, r, h, d, j) && View(m) == View(Clean(gs, d))
    ensures var (r', ok) := GroupEffect(r, gs[j]);
            && Reread(gs, m, r', h, d, j + 1)
            && (gs[j].AcceptGroup? ==> ok)
            && (gs[j].RegistryGroup? ==>
                  var a := gs[j].moduleAddr;
                  (ok <==> Transitions(gs, h, j, a) > 0 || Transitions(gs, h, d, a) % 2 == 0))
  {
    hide WellFormed, Clean, GroupEffect, K.AcceptChunk, R.Apply, Truthful, GroupOk, View, GroupKey, SeenWithin,
      R.IsRegistered;
    var g := gs[j];
    ParamsOk(gs);
    NextIsFresh(r, gs, j);
    FreshKey(r, g);
    StreamShape(r, g);
    SeenStaysWithin(r, gs, j);
    SameStoresOf(m, Clean(gs, d));
    if g.AcceptGroup? {
      LeaflessStep(gs, j);
      AcceptedBy(gs, h, d, j);
      AcceptedAgain(r.kem, Clean(gs, d).kem, g);
    } else {
      RegistryReread(gs, m, r, h, d, j);
    }
  }

  lemma FreshKey(m: Mem, g: Group)
    requires WellFormed(g) && Fresh(m, g)
    ensures GroupKey(g) !in m.modules.seen && GroupKey(g) !in m.kem.seen
  {
  }

  lemma SameStoresOf(a: Mem, b: Mem)
    requires View(a) == View(b)
    ensures a.modules.byAddress == b.modules.byAddress && a.kem.batches == b.kem.batches
  {
  }

  lemma AcceptedAgain(s: K.State, clean: K.State, g: Group)
    requires K.Valid(s) && K.Valid(clean) && WellFormed(g) && g.AcceptGroup? && s.batches == clean.batches
    requires !Opens(clean, g)
    ensures K.AcceptChunk(s, AcceptOf(g)).1 && K.AcceptChunk(s, AcceptOf(g)).0.batches == s.batches
  {
  }

  lemma RegistryReread(gs: seq<Group>, m: Mem, r: Mem, h: nat, d: nat, j: nat)
    requires AllWellFormed(gs) && h <= j < d <= |gs| && gs[j].RegistryGroup? && GroupKey(gs[j]) !in r.modules.seen
    requires ChainOk(gs) && Leafless(gs, h, d) && Reread(gs, m, r, h, d, j)
    requires m.modules.byAddress == Clean(gs, d).modules.byAddress
    ensures var g := gs[j]; var (s', ok) := R.Apply(r.modules, GroupKey(g), g.moduleAddr, g.registered);
            && (ok <==> Transitions(gs, h, j, g.moduleAddr) > 0 || Transitions(gs, h, d, g.moduleAddr) % 2 == 0)
            && s'.byAddress.Keys == m.modules.byAddress.Keys
            && forall a :: R.IsRegistered(s', a)
                           <==> R.IsRegistered(if Transitions(gs, h, j + 1, a) == 0 then m.modules
                                               else Clean(gs, j + 1).modules, a)
  {
    hide WellFormed, Clean, K.AcceptChunk, ChainOk, SeenWithin;
    var g := gs[j];
    var a := g.moduleAddr;
    LeaflessStep(gs, j);
    FlagsMove(gs, h, j, a);
    FlagsMove(gs, h, d, a);
    HasTransition(gs, h, d, j);
    assert a in m.modules.byAddress;
    forall b
      ensures b != a ==> (R.IsRegistered(Clean(gs, j + 1).modules, b) <==> R.IsRegistered(Clean(gs, j).modules, b))
    {
    }
  }

  lemma {:induction false} RereadSoFar(gs: seq<Group>, m: Mem, w: set<Address>, h: nat, d: nat, j: nat)
    requires AllWellFormed(gs) && h <= j <= d <= |gs| && K.Valid(m.kem)
    requires ChainOk(gs) && Leafless(gs, h, d) && View(m) == View(Clean(gs, d)) && m.modules.seen == {}
    requires m.kem.seen == {}
    ensures RunKept(m, gs, w, h, j).1 <==> AllEven(gs, h, d, j)
    ensures RunKept(m, gs, w, h, j).1 ==> Reread(gs, m, RunKept(m, gs, w, h, j).0, h, d, j)
  {
    hide WellFormed, Clean, GroupEffect, View, ChainOk, GetsIn, Reread, Blocked;
    if h == j {
      NothingReread(gs, m, h, d);
    } else {
      RereadSoFar(gs, m, w, h, d, j - 1);
      var r := RunKept(m, gs, w, h, j - 1);
      NotBlocked(gs, w, h, d, j - 1);
      if r.1 {
        RereadStep(gs, m, r.0, h, d, j - 1);
        EvenSoFar(gs, h, d, j - 1);
        if !GetsIn(gs, w, h, j - 1) {
          DroppedReread(gs, m, r.0, h, d, j - 1, w);
        }
      }
    }
  }

  lemma EvenSoFar(gs: seq<Group>, h: nat, d: nat, j: nat)
    requires h <= j < d <= |gs| && AllEven(gs, h, d, j)
    ensures gs[j].RegistryGroup? && Transitions(gs, h, j, gs[j].moduleAddr) > 0 ==>
              Transitions(gs, h, d, gs[j].moduleAddr) % 2 == 0
  {
    if gs[j].RegistryGroup? && Transitions(gs, h, j, gs[j].moduleAddr) > 0 {
      var i := FindTransition(gs, h, j, gs[j].moduleAddr);
    }
  }

  lemma NothingReread(gs: seq<Group>, m: Mem, h: nat, d: nat)
    requires AllWellFormed(gs) && h <= d <= |gs| && m.modules.seen == {} && m.kem.seen == {}
    ensures Reread(gs, m, m, h, d, h)
  {
  }

  lemma NotBlocked(gs: seq<Group>, w: set<Address>, h: nat, d: nat, j: nat)
    requires AllWellFormed(gs) && h <= j < d <= |gs| && Leafless(gs, h, d)
    ensures !Blocked(gs, w, h, j)
  {
    hide GetsIn;
  }

  /** Only an accept can be dropped, and it would have done nothing. */
  lemma DroppedReread(gs: seq<Group>, m: Mem, r: Mem, h: nat, d: nat, j: nat, w: set<Address>)
    requires AllWellFormed(gs) && h <= j < d <= |gs| && Leafless(gs, h, d) && !GetsIn(gs, w, h, j)
    requires ChainOk(gs) && Reread(gs, m, r, h, d, j)
    ensures gs[j].AcceptGroup? && Reread(gs, m, r, h, d, j + 1)
  {
    hide WellFormed, Clean, Range, K.AcceptChunk, ChainOk, SeenWithin, R.IsRegistered;
    LeaflessStep(gs, j);
    SeenWidens(r, gs, j);
  }

  lemma SeenWidens(m: Mem, gs: seq<Group>, n: nat)
    requires AllWellFormed(gs) && n < |gs| && SeenWithin(m, gs, n)
    ensures SeenWithin(m, gs, n + 1)
  {
    hide WellFormed, GroupKey;
  }

  /** Reread to the end, everything served is as before. */
  lemma RereadEnds(gs: seq<Group>, m: Mem, r: Mem, h: nat, d: nat)
    requires AllWellFormed(gs) && h <= d <= |gs|
    requires View(m) == View(Clean(gs, d)) && Reread(gs, m, r, h, d, d)
    ensures View(r) == View(m)
  {
    hide WellFormed, Clean, SeenWithin;
    SameStoresOf(m, Clean(gs, d));
    forall a
      ensures a in r.modules.byAddress <==> a in m.modules.byAddress
      ensures a in r.modules.byAddress ==> r.modules.byAddress[a] == m.modules.byAddress[a]
    {
      assert R.IsRegistered(r.modules, a) <==> R.IsRegistered(m.modules, a);
    }
    assert r.modules.byAddress == m.modules.byAddress;
  }

  /** What a commit at an old head costs after a reboot. The transitions handled past that head are
      read again with their keys forgotten; the poll throws over them exactly when some module went
      through an odd number, and otherwise everything served is as before. */
  lemma RereadThrowsIff(gs: seq<Group>, m: Mem, w: set<Address>, h: nat, d: nat)
    requires AllWellFormed(gs) && h <= d <= |gs| && K.Valid(m.kem)
    requires ChainOk(gs) && Leafless(gs, h, d) && View(m) == View(Clean(gs, d)) && m.modules.seen == {}
    requires m.kem.seen == {}
    ensures var (r, ok) := RunKept(m, gs, w, h, d);
            && (ok <==> AllEven(gs, h, d, d))
            && (ok ==> View(r) == View(m))
  {
    hide WellFormed, Clean, View, ChainOk, Reread, RunKept;
    RereadSoFar(gs, m, w, h, d, d);
    if RunKept(m, gs, w, h, d).1 {
      RereadEnds(gs, m, RunKept(m, gs, w, h, d).0, h, d);
    }
  }

  // ---- and how it ends ---------------------------------------------------------------

  /** Some way through the re-reading: up to `j`, with the keys of the transitions up to there taken. */
  ghost predicate Along(gs: seq<Group>, m: Mem, r: Mem, h: nat, d: nat, j: nat)
    requires AllWellFormed(gs) && h <= j <= d <= |gs|
  {
    && K.Valid(r.kem) && Reread(gs, m, r, h, d, j)
    && forall i :: h <= i < j && gs[i].RegistryGroup? ==> GroupKey(gs[i]) in r.modules.seen
  }

  /** A group read once more after its turn changes nothing but, for an accept, its key. */
  lemma BehindStep(gs: seq<Group>, m: Mem, r: Mem, h: nat, d: nat, j: nat, i: nat)
    requires AllWellFormed(gs) && h <= i < j <= d <= |gs|
    requires ChainOk(gs) && Leafless(gs, h, d) && Along(gs, m, r, h, d, j) && View(m) == View(Clean(gs, d))
    ensures GroupEffect(r, gs[i]).1 && Along(gs, m, GroupEffect(r, gs[i]).0, h, d, j)
  {
    hide WellFormed, Clean, GroupEffect, K.AcceptChunk, R.Apply, Truthful, GroupOk, View, GroupKey, SeenWithin,
      R.IsRegistered;
    var g := gs[i];
    StreamShape(r, g);
    SameStoresOf(m, Clean(gs, d));
    if g.AcceptGroup? {
      AcceptedBy(gs, h, d, i);
      AcceptedAgain(r.kem, Clean(gs, d).kem, g);
      SeenAgain(gs, r, GroupEffect(r, g).0, i, j);
    } else {
      SeenIsIdle(r.modules, g);
      assert GroupEffect(r, g).0.modules == r.modules;
      SameWithin(gs, r, GroupEffect(r, g).0, j);
    }
  }

  lemma SeenIsIdle(s: R.State, g: Group)
    requires WellFormed(g) && g.RegistryGroup? && GroupKey(g) in s.seen
    ensures R.Apply(s, GroupKey(g), g.moduleAddr, g.registered) == (s, true)
  {
  }

  lemma SameWithin(gs: seq<Group>, r: Mem, r': Mem, j: nat)
    requires AllWellFormed(gs) && j <= |gs| && SeenWithin(r, gs, j) && r'.modules == r.modules && r'.kem == r.kem
    ensures SeenWithin(r', gs, j)
  {
  }

  lemma SeenAgain(gs: seq<Group>, r: Mem, r': Mem, i: nat, j: nat)
    requires AllWellFormed(gs) && i < j <= |gs| && gs[i].AcceptGroup? && SeenWithin(r, gs, j) && K.Valid(r.kem)
    requires r'.modules == r.modules && r'.kem == K.AcceptChunk(r.kem, AcceptOf(gs[i])).0
    ensures SeenWithin(r', gs, j)
  {
    hide WellFormed, GroupKey, K.AcceptChunk;
    KemSees(r.kem, AcceptOf(gs[i]));
  }

  /** A group read in its turn. */
  lemma TurnStep(gs: seq<Group>, m: Mem, r: Mem, h: nat, d: nat, j: nat)
    requires AllWellFormed(gs) && h <= j < d <= |gs|
    requires ChainOk(gs) && Leafless(gs, h, d) && Along(gs, m, r, h, d, j) && View(m) == View(Clean(gs, d))
    ensures Along(gs, m, GroupEffect(r, gs[j]).0, h, d, j + 1)
  {
    hide WellFormed, Clean, GroupEffect, K.AcceptChunk, R.Apply, View, GroupKey, ChainOk, Reread;
    var g := gs[j];
    RereadStep(gs, m, r, h, d, j);
    StreamShape(r, g);
    if g.RegistryGroup? {
      RegistrySees(r.modules, GroupKey(g), g.moduleAddr, g.registered);
    }
  }

  lemma DroppedAlong(gs: seq<Group>, m: Mem, r: Mem, h: nat, d: nat, j: nat, w: set<Address>)
    requires AllWellFormed(gs) && h <= j < d <= |gs| && Leafless(gs, h, d) && !GetsIn(gs, w, h, j)
    requires ChainOk(gs) && Along(gs, m, r, h, d, j)
    ensures Along(gs, m, r, h, d, j + 1)
  {
    hide WellFormed, GetsIn, Reread, ChainOk, GroupKey;
    DroppedReread(gs, m, r, h, d, j, w);
  }

  /** One poll more: it goes through, or it throws past everything that threw before. */
  lemma {:induction false} AlongPoll(gs: seq<Group>, m: Mem, r: Mem, w: set<Address>, h: nat, d: nat, j: nat, n: nat)
    returns (j': nat)
    requires AllWellFormed(gs) && h <= n <= d <= |gs| && h <= j <= d && K.Valid(r.kem)
    requires ChainOk(gs) && Leafless(gs, h, d) && Along(gs, m, r, h, d, j) && View(m) == View(Clean(gs, d))
    ensures j <= j' <= d && Along(gs, m, RunKept(r, gs, w, h, n).0, h, d, j')
    ensures if RunKept(r, gs, w, h, n).1 then j' == Max(j, n) else j < j'
    decreases n
  {
    hide WellFormed, Clean, GroupEffect, View, ChainOk, GetsIn, Along, Blocked, Leafless;
    if n == h {
      j' := j;
    } else {
      j' := AlongPoll(gs, m, r, w, h, d, j, n - 1);
      var (s, ok) := RunKept(r, gs, w, h, n - 1);
      NotBlocked(gs, w, h, d, n - 1);
      if ok && GetsIn(gs, w, h, n - 1) {
        if n - 1 < j' {
          BehindStep(gs, m, s, h, d, j', n - 1);
        } else {
          TurnStep(gs, m, s, h, d, j');
          j' := j' + 1;
        }
      } else if ok && n - 1 == j' {
        DroppedAlong(gs, m, s, h, d, j', w);
        j' := j' + 1;
      }
    }
  }

  /** The read model after polls with these watch-sets. */
  ghost function Rereads(m: Mem, gs: seq<Group>, ws: seq<set<Address>>, h: nat, d: nat): (r: Mem)
    requires K.Valid(m.kem) && AllWellFormed(gs) && h <= d <= |gs|
    ensures K.Valid(r.kem)
  {
    if ws == [] then m else RunKept(Rereads(m, gs, ws[..|ws| - 1], h, d), gs, ws[|ws| - 1], h, d).0
  }

  /** Poll number `k` gets through the groups re-read. */
  ghost predicate GetsThrough(m: Mem, gs: seq<Group>, ws: seq<set<Address>>, h: nat, d: nat, k: nat)
    requires K.Valid(m.kem) && AllWellFormed(gs) && h <= d <= |gs| && k < |ws|
  {
    RunKept(Rereads(m, gs, ws[..k], h, d), gs, ws[k], h, d).1
  }

  lemma {:induction false} RereadsAdvance(m: Mem, gs: seq<Group>, ws: seq<set<Address>>, h: nat, d: nat)
    returns (j: nat)
    requires AllWellFormed(gs) && h <= d <= |gs| && K.Valid(m.kem)
    requires ChainOk(gs) && Leafless(gs, h, d) && View(m) == View(Clean(gs, d)) && m.modules.seen == {}
    requires m.kem.seen == {}
    ensures h <= j <= d && Along(gs, m, Rereads(m, gs, ws, h, d), h, d, j)
    ensures j >= h + |ws| || exists k :: 0 <= k < |ws| && GetsThrough(m, gs, ws, h, d, k)
    decreases |ws|
  {
    hide WellFormed, Clean, View, ChainOk, RunKept, Leafless, Reread;
    if ws == [] {
      j := h;
      NothingReread(gs, m, h, d);
    } else {
      var init := ws[..|ws| - 1];
      var j0 := RereadsAdvance(m, gs, init, h, d);
      j := AlongPoll(gs, m, Rereads(m, gs, init, h, d), ws[|ws| - 1], h, d, j0, d);
      if k :| 0 <= k < |init| && GetsThrough(m, gs, init, h, d, k) {
        assert ws[..k] == init[..k] && GetsThrough(m, gs, ws, h, d, k);
      } else if RunKept(Rereads(m, gs, init, h, d), gs, ws[|ws| - 1], h, d).1 {
        assert GetsThrough(m, gs, ws, h, d, |ws| - 1);
      }
    }
  }

  /** It heals. Each poll that throws over the groups re-read throws further on than the one before, so
      one of any d - h + 1 polls gets through them; and one that does serves what was served before. */
  lemma RereadHeals(m: Mem, gs: seq<Group>, ws: seq<set<Address>>, h: nat, d: nat)
    requires AllWellFormed(gs) && h <= d <= |gs| && K.Valid(m.kem)
    requires ChainOk(gs) && Leafless(gs, h, d) && View(m) == View(Clean(gs, d)) && m.modules.seen == {}
    requires m.kem.seen == {}
    ensures |ws| > d - h ==> exists k :: 0 <= k < |ws| && GetsThrough(m, gs, ws, h, d, k)
    ensures forall k :: 0 <= k < |ws| && GetsThrough(m, gs, ws, h, d, k) ==>
              View(Rereads(m, gs, ws[..k + 1], h, d)) == View(m)
  {
    hide WellFormed, Clean, View, ChainOk, RunKept, Leafless, Reread;
    var j := RereadsAdvance(m, gs, ws, h, d);
    forall k | 0 <= k < |ws| && GetsThrough(m, gs, ws, h, d, k)
      ensures View(Rereads(m, gs, ws[..k + 1], h, d)) == View(m)
    {
      var before := Rereads(m, gs, ws[..k], h, d);
      var j0 := RereadsAdvance(m, gs, ws[..k], h, d);
      var j1 := AlongPoll(gs, m, before, ws[k], h, d, j0, d);
      assert ws[..k + 1][..k] == ws[..k];
      RereadEnds(gs, m, RunKept(before, gs, ws[k], h, d).0, h, d);
    }
  }
}
