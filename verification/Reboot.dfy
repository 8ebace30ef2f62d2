/** A reboot from the rows of a clean run is that run, minus what only a live process holds. */
module Reboot {
  import opened Field
  import opened Imt
  import opened Chain
  import opened Tables
  import opened Ingest
  import opened Correlation
  import opened Effects
  import opened Replay
  import opened Views
  import opened Durable
  import opened Runs
  import opened Machine
  import opened Boot
  import opened Remembered
  import F = Feed
  import FL = LedgerTables
  import K = Kem
  import KT = KemTables
  import LS = LedgerSync
  import M = Mirror
  import R = Registry
  import T = LeafTables

  // ---- every appended leaf is recorded -----------------------------------------------

  lemma {:induction false} LeavesOneByOne(rows: seq<Row>, more: seq<Row>, i: nat)
    requires i in Leaves(rows + more)
    ensures i in Leaves(rows) || exists k :: 0 <= k < |more| && more[k].Single? && more[k].leafIndex == i
  {
    if more == [] {
      assert rows + more == rows;
    } else {
      var init := more[..|more| - 1];
      assert (rows + more)[..|rows + more| - 1] == rows + init;
      if i in Leaves(rows + init) {
        LeavesOneByOne(rows, init, i);
        if i !in Leaves(rows) {
          var k :| 0 <= k < |init| && init[k].Single? && init[k].leafIndex == i;
          assert more[k] == init[k];
        }
      } else {
        assert more[|more| - 1].Single? && more[|more| - 1].leafIndex == i;
      }
    }
  }

  lemma FillAddsLeaves(t: M.State, t': M.State, s: Subtree, source: M.Source)
    requires FilledOrNot(t, t', s, source)
    ensures t.leaves.Keys <= t'.leaves.Keys
  {
  }

  lemma EffectAddsLeaves(m: Mem, g: Group)
    requires K.Valid(m.kem) && WellFormed(g)
    ensures m.tree.leaves.Keys <= GroupEffect(m, g).0.tree.leaves.Keys
  {
    hide GroupEffect, FilledOrNot, PairsOf;
    match g {
      case SpendGroup(_, _, _, _, _, _, _, _, _, _) =>
        SpendShape(m, g);
        OwnRecorded(m.tree, g);
      case BatchGroup(_, _, _, _, _, _) =>
        BatchShape(m, g);
        FillAddsLeaves(m.tree, GroupEffect(m, g).0.tree, g.s.(root := 0), M.Arbiter);
      case PrivGroup(_, _, _, _, _, _, _, _) =>
        PrivShape(m, g);
        FillAddsLeaves(m.tree, GroupEffect(m, g).0.tree, g.s.(root := 0), M.Public);
      case _ => StreamShape(m, g);
    }
  }

  lemma OwnRecorded(t: M.State, g: Group)
    requires WellFormed(g) && g.SpendGroup?
    ensures t.leaves.Keys <= RecordPairs(t, PairsOf(g)).leaves.Keys
  {
    RecordedLeaves(t, PairsOf(g));
  }

  lemma GroupIsRecorded(gs: seq<Group>, n: nat, t: M.State, t': M.State)
    requires AllWellFormed(gs) && n < |gs|
    requires forall i :: i in Leaves(RowsUpTo(gs, n)) ==> i in t.leaves
    requires t.leaves.Keys <= t'.leaves.Keys
    requires gs[n].SpendGroup? ==> LeavesIn(t', gs[n].start, gs[n].ocs)
    ensures forall i :: i in Leaves(RowsUpTo(gs, n + 1)) ==> i in t'.leaves
  {
    hide WellFormed, LogsOf, GroupRows, Leaves;
    var g := gs[n];
    RowsOfGroup(g);
    forall i | i in Leaves(RowsUpTo(gs, n + 1))
      ensures i in t'.leaves
    {
      LeavesOneByOne(RowsUpTo(gs, n), GroupRows(g), i);
      if i !in Leaves(RowsUpTo(gs, n)) {
        var k :| 0 <= k < |GroupRows(g)| && GroupRows(g)[k].Single? && GroupRows(g)[k].leafIndex == i;
      }
    }
  }

  lemma {:induction false} CleanIsRecorded(gs: seq<Group>, n: nat)
    requires AllWellFormed(gs) && n <= |gs|
    requires ChainOk(gs)
    ensures forall i :: i in Leaves(RowsUpTo(gs, n)) ==> i in Clean(gs, n).tree.leaves
  {
    hide GroupEffect, ChainOk, WellFormed, RowsUpTo, Inserted, LeavesIn, Leaves, Done, GroupOk;
    if n == 0 {
      NothingRecorded(gs);
    } else {
      CleanIsRecorded(gs, n - 1);
      InsertGrounds(gs, n - 1);
      InsertedShape(gs, n - 1);
      OkFits(gs, n - 1);
      var m1 := Inserted(Clean(gs, n - 1), gs[n - 1]);
      OkLands(m1, gs[n - 1]);
      EffectAddsLeaves(m1, gs[n - 1]);
      EffectIsDone(m1, gs[n - 1]);
      DoneLeaves(Clean(gs, n), gs[n - 1]);
      GroupIsRecorded(gs, n - 1, m1.tree, Clean(gs, n).tree);
    }
  }

  lemma NothingRecorded(gs: seq<Group>)
    requires AllWellFormed(gs)
    ensures Leaves(RowsUpTo(gs, 0)) == map[]
  {
  }

  lemma OkLands(m: Mem, g: Group)
    requires K.Valid(m.kem) && WellFormed(g) && GroupOk(m, g)
    ensures GroupEffect(m, g).1
  {
  }

  lemma DoneLeaves(m: Mem, g: Group)
    requires WellFormed(g) && Done(m, g)
    ensures g.SpendGroup? ==> LeavesIn(m.tree, g.start, g.ocs)
  {
  }

  // ---- the boot lands on the clean run -----------------------------------------------

  /** What a reboot keeps of a read model: everything but the buffers and the replay keys of the
      registry and the chunk store. */
  function Core(m: Mem, block: int): Mem {
    Mem(m.tree.(pending := []), F.Core(m.feed).(lastBlock := block), FL.Core(m.ledger), R.Core(m.modules),
        KT.Core(m.kem))
  }

  lemma FeedBoots(s: F.State, block: int)
    requires F.Valid(s)
    ensures F.Boot(F.Dump(s, block)) == F.Core(s).(lastBlock := block)
  {
    var s' := s.(lastBlock := block);
    assert F.Valid(s');
    F.BootRestores(s');
  }

  lemma TreeBoots(m: Mem)
    requires M.Coherent(m.tree) && M.AllRecorded(m.tree) && FillsRemembered(m)
    ensures var t := M.Replay(M.EMPTY, SelectOrdered(M.LeafTable(m.tree)));
            FeedFills(LedgerFills(t, m.ledger.notes, Above(t.batchRoots.Keys)), m.feed.feed) == m.tree.(pending := [])
  {
    hide M.Coherent, M.LeafTable, M.Replay, FeedFills, LedgerFills, FillsRemembered;
    M.RebuildRefinesRun(m.tree);
    var n := Above(m.tree.batchRoots.Keys);
    FillsRestored(m, n);
  }

  lemma SyncedParts(db: Db, m: Mem)
    requires Synced(db, m)
    ensures M.Coherent(m.tree) && F.Valid(m.feed) && FL.Valid(m.ledger) && K.Valid(m.kem)
  {
  }

  lemma AllAreRecorded(gs: seq<Group>, n: nat)
    requires AllWellFormed(gs) && n <= |gs|
    requires ChainOk(gs)
    ensures M.AllRecorded(Clean(gs, n).tree)
  {
    hide GroupEffect, ChainOk, WellFormed, RowsUpTo, Clean, Leaves;
    CleanIsRecorded(gs, n);
    CleanIsSynced(gs, n);
  }

  /** Booting from the rows of the clean run gives the clean run back. */
  lemma BootIsCore(gs: seq<Group>, n: nat, block: int)
    requires AllWellFormed(gs) && n <= |gs|
    requires ChainOk(gs)
    ensures Booted(Dump(Clean(gs, n), block)) == Core(Clean(gs, n), block)
  {
    hide GroupEffect, ChainOk, WellFormed, RowsUpTo, Clean, Leaves, Synced, M.Coherent, M.AllRecorded, FillsRemembered,
      F.Valid, FL.Valid, K.Valid, M.LeafTable, F.Dump, FL.Dump, KT.Dump, F.Boot, FL.Boot, KT.Boot, M.Replay, FeedFills,
      LedgerFills, NotesBelow, SeenWithin;
    var m := Clean(gs, n);
    CleanIsSynced(gs, n);
    SyncedParts(NO_ROWS, m);
    AllAreRecorded(gs, n);
    CleanRemembers(gs, n);
    TreeBoots(m);
    FeedBoots(m.feed, block);
    FL.BootRestores(m.ledger);
    KT.BootRestores(m.kem);
  }

  lemma CoreIsSynced(db: Db, m: Mem, block: int)
    requires Synced(db, m) && K.Valid(m.kem)
    ensures Synced(Dump(m, block), Core(m, block)) && View(Core(m, block)) == View(m) && K.Valid(Core(m, block).kem)
  {
    hide M.LeafTable, FL.Dump, M.Coherent, LS.Synced, F.Valid, F.EventTable, T.Synced, F.Synced, KT.Synced, KT.Dump,
      F.Dump;
    FlushedIsSynced(db, m, block);
    KemCoreSynced(KT.Dump(m.kem), m.kem.(pendingBatches := [], pendingChunks := []));
  }

  lemma KemCoreSynced(db: KT.Db, s: K.State)
    requires KT.Synced(db, s)
    ensures KT.Synced(db, s.(seen := {}))
  {
    hide KT.Dump, KT.Stage;
    KT.SeenIsNotStaged(db, s, {});
  }

  /** Where a reboot lands: at the durable point, with nothing to replay. */
  lemma BootLands(gs: seq<Group>, n: nat, block: int)
    requires AllWellFormed(gs) && n <= |gs|
    requires ChainOk(gs)
    ensures var db := Dump(Clean(gs, n), block);
            && AtPoint(db, Booted(db), gs, |RowsUpTo(gs, n)|, n)
            && Booted(db).feed.lastBlock == block && K.Valid(Booted(db).kem)
  {
    hide GroupEffect, ChainOk, WellFormed, RowsUpTo, Clean, Synced, Dump, Booted, View;
    var m := Clean(gs, n);
    BootIsCore(gs, n, block);
    CleanIsSynced(gs, n);
    CoreIsSynced(NO_ROWS, m, block);
    RowsArePrefix(gs, n, |gs|);
    NothingSeen(Core(m, block), gs, n);
  }

  lemma NothingSeen(m: Mem, gs: seq<Group>, n: nat)
    requires AllWellFormed(gs) && n <= |gs| && m.modules.seen == {} && m.kem.seen == {}
    ensures SeenWithin(m, gs, n)
  {
  }
}
