/** The one transaction: every store's rows next to every store's buffers. */
module Durable {
  import opened Field
  import opened Merkle
  import opened Imt
  import opened Chain
  import opened Ingest
  import opened Correlation
  import opened Effects
  import D = Disclosure
  import F = Feed
  import FL = LedgerTables
  import K = Kem
  import KT = KemTables
  import L = Ledger
  import LS = LedgerSync
  import M = Mirror
  import R = Registry
  import T = LeafTables

  datatype Db = Db(leaves: map<nat, Row>, feed: F.Db, ledger: FL.Db, modules: map<Address, bool>, kem: KT.Db)

  const NO_ROWS := Db(map[], F.NO_ROWS, FL.NO_ROWS, map[], KT.Db(map[], map[]))

  /** Every participant's flushInto, the cursor last. */
  function Stage(db: Db, m: Mem, block: int): Db {
    Db(T.Stage(db.leaves, m.tree.pending), F.Stage(db.feed, m.feed, block), FL.Stage(db.ledger, m.ledger),
       R.Stage(db.modules, m.modules.pendingUpserts), KT.Stage(db.kem, m.kem))
  }

  /** The read model, whole, as rows. */
  function Dump(m: Mem, block: int): Db
    requires K.Valid(m.kem)
  {
    Db(M.LeafTable(m.tree), F.Dump(m.feed, block), FL.Dump(m.ledger), m.modules.byAddress, KT.Dump(m.kem))
  }

  /** Every participant's commitFlush. */
  function Flushed(m: Mem, block: int): Mem {
    Mem(m.tree.(pending := []), F.Core(m.feed).(lastBlock := block), FL.Core(m.ledger),
        m.modules.(pendingUpserts := []), m.kem.(pendingBatches := [], pendingChunks := []))
  }

  /** The buffers hold nothing the read model does not. */
  ghost predicate Retained(m: Mem) {
    && (set nf | nf in m.feed.pendingNullifiers) <= m.feed.nullifiers
    && R.Restageable(m.modules)
    && KT.BuffersBelow(m.kem)
  }

  /** Rows plus buffers are the read model, in every store. */
  ghost predicate Synced(db: Db, m: Mem) {
    && T.Synced(db.leaves, m.tree)
    && F.Synced(db.feed, m.feed)
    && LS.Synced(db.ledger, m.ledger)
    && R.Synced(db.modules, m.modules)
    && KT.Synced(db.kem, m.kem)
    && Retained(m)
  }

  lemma NoLeaves()
    ensures T.Synced(map[], M.EMPTY)
  {
    M.EmptyIsCoherent();
    assert M.LeafTable(M.EMPTY) == map[];
  }

  lemma NoEvents()
    ensures F.Synced(F.NO_ROWS, F.EMPTY)
  {
    assert F.EventTable([]) == map[];
  }

  lemma NoNotes()
    ensures LS.Synced(FL.NO_ROWS, L.EMPTY)
  {
    assert L.EMPTY.alarms == L.EMPTY.alarms[..0] && L.EMPTY.pendingAlarms == L.EMPTY.alarms[0..];
  }

  lemma NoBatchRows()
    ensures KT.Dump(K.EMPTY).batches == map[]
  {
  }

  lemma NoCells()
    ensures KT.Dump(K.EMPTY).chunks == map[]
  {
  }

  lemma NoChunks()
    ensures KT.Synced(KT.Db(map[], map[]), K.EMPTY) && KT.BuffersBelow(K.EMPTY)
  {
    hide KT.Dump;
    NoBatchRows();
    NoCells();
  }

  lemma NothingIsSynced()
    ensures Synced(NO_ROWS, Ingest.EMPTY)
  {
    hide T.Synced, F.Synced, LS.Synced, KT.Synced, KT.BuffersBelow;
    NoLeaves();
    NoEvents();
    NoNotes();
    NoChunks();
  }

  /** Staging then committing makes the durable rows exactly the read model. */
  lemma FlushLands(db: Db, m: Mem, block: int)
    requires Synced(db, m) && K.Valid(m.kem)
    ensures Stage(db, m, block) == Dump(m, block)
  {
    hide T.Stage, F.Stage, FL.Stage, KT.Stage, R.Stage, M.LeafTable, FL.Dump, KT.Dump, M.Coherent, LS.Synced, Retained,
      F.Valid;
    LS.FlushLands(db.ledger, m.ledger);
    FeedLands(db.feed, m.feed, block);
  }

  lemma FeedLands(db: F.Db, s: F.State, block: int)
    requires F.Synced(db, s)
    ensures F.Stage(db, s, block) == F.Dump(s, block)
  {
  }

  /** COMMIT took effect but was reported as failed: the kept buffers are still right for the rows. */
  lemma UnreportedCommit(db: Db, m: Mem, block: int)
    requires Synced(db, m) && K.Valid(m.kem)
    ensures Synced(Dump(m, block), m)
  {
    hide T.Stage, M.LeafTable, FL.Dump, KT.Dump, M.Coherent, LS.Synced, F.Valid, F.StageEvents, F.EventTable,
      KT.BuffersBelow, R.Stage;
    T.RestageIsIdle(M.LeafTable(m.tree), m.tree.pending);
    F.RestageIsIdle(m.feed, block);
    LS.RestageIsIdle(db.ledger, m.ledger);
    KT.RestageIsIdle(m.kem);
  }

  lemma FlushedIsSynced(db: Db, m: Mem, block: int)
    requires Synced(db, m) && K.Valid(m.kem)
    ensures Synced(Dump(m, block), Flushed(m, block))
  {
    hide M.LeafTable, FL.Dump, M.Coherent, LS.Synced, F.Valid, F.EventTable, T.Synced, F.Synced, KT.Synced;
    TreeFlushed(db.leaves, m.tree);
    FeedFlushed(db.feed, m.feed, block);
    LS.ClearedIsSynced(db.ledger, m.ledger);
    KemFlushed(db.kem, m.kem);
  }

  lemma TreeFlushed(t: map<nat, Row>, m: M.State)
    requires T.Synced(t, m)
    ensures T.Synced(M.LeafTable(m), m.(pending := []))
  {
    var m' := m.(pending := []);
    assert M.LeafTable(m') == M.LeafTable(m);
  }

  lemma FeedFlushed(db: F.Db, s: F.State, block: int)
    requires F.Synced(db, s)
    ensures F.Synced(F.Dump(s, block), F.Core(s).(lastBlock := block))
  {
  }

  lemma KemFlushed(db: KT.Db, s: K.State)
    requires KT.Synced(db, s)
    ensures KT.Synced(KT.Dump(s), s.(pendingBatches := [], pendingChunks := []))
  {
  }

  // ---- every group keeps it ----------------------------------------------------------

  /** The tree has the group's inserts. */
  ghost predicate Grounded(t: M.State, g: Group) {
    && (g.SpendGroup? ==>
        forall i: nat :: g.start <= i < g.start + |g.ocs| ==>
          i in Leaves(t.rows) && Leaves(t.rows)[i] == g.ocs[i - g.start])
    && (IsBatch(g) ==>
          && Start(Block(g.s.start)) == g.s.start
          && Block(g.s.start) in t.batchRoots && t.batchRoots[Block(g.s.start)] == g.s.subtreeRoot)
  }

  /** The recovered notes and alarms take their place in the ledger's tables. */
  ghost predicate BookFits(s: L.State, op: L.OpEnvelope)
    requires L.WellShaped(op)
  {
    ARBITER && L.DeriveOp(op).Some? ==> LS.Fits(L.TakeKey(s, op.key), L.DeriveOp(op).value, op.key.txHash)
  }

  ghost predicate LedgerFits(s: L.State, g: Group)
    requires WellFormed(g)
  {
    && (g.SpendGroup? && !Consumer(g.kind) ==> (SpentShaped(g); BookFits(s, SpentOp(MainLog(g), PairsOf(g)))))
    && (g.BatchGroup? && g.published.Some? ==>
          && L.WellShaped(BatchOp(MainLog(g), g.s, g.published.value.envelope))
          && BookFits(s, BatchOp(MainLog(g), g.s, g.published.value.envelope)))
  }

  lemma {:induction false} PairsStaySynced(table: map<nat, Row>, t: M.State, pairs: seq<Pair>)
    requires T.Synced(table, t)
    requires forall i :: 0 <= i < |pairs| ==>
               pairs[i].leafIndex in Leaves(t.rows) && Leaves(t.rows)[pairs[i].leafIndex] == pairs[i].leaf
    ensures T.Synced(table, RecordPairs(t, pairs))
    decreases |pairs|
  {
    hide T.Synced, Leaves;
    if pairs != [] {
      T.RecordStaysSynced(table, t, pairs[0].leafIndex, pairs[0].leaf);
      PairsStaySynced(table, M.RecordLeaf(t, pairs[0].leafIndex, pairs[0].leaf), pairs[1..]);
    }
  }

  lemma OwnPairsStaySynced(table: map<nat, Row>, t: M.State, g: Group)
    requires T.Synced(table, t) && WellFormed(g) && g.SpendGroup? && Grounded(t, g)
    ensures T.Synced(table, RecordPairs(t, PairsOf(g)))
  {
    hide T.Synced, Leaves;
    forall i | 0 <= i < |g.ocs|
      ensures PairsOf(g)[i].leafIndex in Leaves(t.rows) && Leaves(t.rows)[PairsOf(g)[i].leafIndex] == PairsOf(g)[i].leaf
    {
      assert PairsOf(g)[i].leafIndex == g.start + i;
    }
    PairsStaySynced(table, t, PairsOf(g));
  }

  lemma {:induction false} NullifiersRetained(s: F.State, nfs: seq<Felt>)
    requires (set nf | nf in s.pendingNullifiers) <= s.nullifiers
    ensures (set nf | nf in F.AddNullifiers(s, nfs).pendingNullifiers) <= F.AddNullifiers(s, nfs).nullifiers
  {
    if nfs != [] {
      NullifiersRetained(s, nfs[..|nfs| - 1]);
    }
  }

  /** A feed entry with its nullifiers. */
  lemma EntryStaysSynced(db: F.Db, s: F.State, d: F.Draft, nfs: seq<Felt>)
    requires F.Synced(db, s) && (set nf | nf in s.pendingNullifiers) <= s.nullifiers
    ensures var s' := F.AddNullifiers(F.AddEvent(s, d).0, nfs);
            F.Synced(db, s') && (set nf | nf in s'.pendingNullifiers) <= s'.nullifiers
  {
    hide F.Synced;
    F.AddStaysSynced(db, s, d);
    F.NullifiersStaySynced(db, F.AddEvent(s, d).0, nfs);
    NullifiersRetained(F.AddEvent(s, d).0, nfs);
  }

  lemma BookStaysSynced(db: Db, m: Mem, op: L.OpEnvelope)
    requires Synced(db, m) && L.WellShaped(op) && BookFits(m.ledger, op)
    requires op.kind.OpDisburse? ==>
               && Start(Block(op.batchStart)) == op.batchStart
               && Block(op.batchStart) in m.tree.batchRoots && m.tree.batchRoots[Block(op.batchStart)] == op.batchRoot
    ensures Synced(db, Book(m, op).0)
  {
    hide LS.Synced, LS.Fits, T.Synced, F.Synced, R.Synced, KT.Synced, Retained, M.Coherent;
    if ARBITER {
      LS.ApplyStaysSynced(db.ledger, m.ledger, op);
      BookedFill(m.ledger, op);
      RetainedSame(m, Book(m, op).0);
      var fill := L.Apply(m.ledger, op).1;
      if fill.Some? {
        T.FillStaysSynced(db.leaves, m.tree, op.batchStart, fill.value, M.Arbiter);
      }
    }
  }

  lemma RetainedSame(m: Mem, m': Mem)
    requires Retained(m) && m'.feed == m.feed && m'.modules == m.modules && m'.kem == m.kem
    ensures Retained(m')
  {
  }

  lemma BookedFill(s: L.State, op: L.OpEnvelope)
    requires L.WellShaped(op)
    ensures var fill := L.Apply(s, op).1;
            fill.Some? ==> op.kind.OpDisburse? && |fill.value| == B && FoldRun(LOG_B, fill.value) == op.batchRoot
  {
  }

  lemma {:induction false} StageKeepsRows(t: map<nat, F.Entry>, feed: seq<F.Entry>, at: seq<nat>, i: nat)
    requires i in t
    ensures i in F.StageEvents(t, feed, at)
  {
    if at != [] {
      StageKeepsRows(t, feed, at[..|at| - 1], i);
    }
  }

  /** A feed position past every durable row. */
  lemma NewIsNotDurable(db: F.Db, s: F.State, at: nat)
    requires F.Synced(db, s) && at >= |s.feed|
    ensures at !in db.events
  {
    if at in db.events {
      StageKeepsRows(db.events, s.feed, s.pendingEvents, at);
      F.TableHas(s.feed);
    }
  }

  lemma AnnounceStaysSynced(db: Db, m: Mem, at: nat, ev: Event)
    requires Synced(db, m) && ev.WithdrawAnnouncement? && at !in db.feed.events
    ensures Synced(db, Announce(m, [at], ev))
  {
    hide F.Synced, T.Synced, LS.Synced, R.Synced, KT.Synced, M.Coherent;
    if at < |m.feed.feed| {
      F.AnnounceStaysSynced(db.feed, m.feed, at, ev.announcement);
    }
  }

  lemma SpendStaysSynced(db: Db, m: Mem, g: Group)
    requires Synced(db, m) && K.Valid(m.kem) && WellFormed(g) && g.SpendGroup? && Grounded(m.tree, g)
    requires LedgerFits(m.ledger, g)
    ensures Synced(db, GroupEffect(m, g).0)
  {
    hide F.Synced, T.Synced, LS.Synced, R.Synced, KT.Synced, M.Coherent, RecordPairs, Book, F.AddNullifiers, Grounded,
      SpentDraft, SpentOp, BookFits, L.WellShaped, PairsOf, Consumer, Withdrawal;
    var l, pairs := MainLog(g), PairsOf(g);
    var d := SpentDraft(l, pairs);
    OwnPairsStaySynced(db.leaves, m.tree, g);
    EntryStaysSynced(db.feed, m.feed, d, g.nfs);
    var fed := m.(tree := RecordPairs(m.tree, pairs), feed := F.AddNullifiers(F.AddEvent(m.feed, d).0, g.nfs));
    NewIsNotDurable(db.feed, m.feed, |m.feed.feed|);
    if F.AddEvent(m.feed, d).1.Some? {
      if !Consumer(g.kind) {
        SpentShaped(g);
        BookStaysSynced(db, fed, SpentOp(l, pairs));
      }
      if g.announcement.Some? {
        AnnounceStaysSynced(db, Spend(m, l, pairs).0, |m.feed.feed|, g.announcement.value);
      }
    }
  }

  lemma BatchStaysSynced(db: Db, m: Mem, g: Group)
    requires Synced(db, m) && K.Valid(m.kem) && WellFormed(g) && g.BatchGroup? && Grounded(m.tree, g)
    requires LedgerFits(m.ledger, g)
    ensures Synced(db, GroupEffect(m, g).0)
  {
    hide F.Synced, T.Synced, LS.Synced, R.Synced, KT.Synced, M.Coherent, Book, F.AddNullifiers, BookFits, L.WellShaped,
      D.VerifyDisclosure, Consecutive;
    var l := MainLog(g);
    var cts := if g.published.Some? then g.published.value.elements else [];
    var disclosure := D.VerifyDisclosure(cts, l.ev.disclosureHash, l.txHash, g.s.start);
    var slices := if cts == [] then [] else Consecutive(g.s.start, B);
    var d := F.Draft(KeyOf(l), l.blockNumber, F.DisburseEvent, slices, Some(disclosure), None, None, l.ev.payload);
    EntryStaysSynced(db.feed, m.feed, d, [g.nullifier]);
    var fed := m.(feed := F.AddNullifiers(F.AddEvent(m.feed, d).0, [g.nullifier]));
    if F.AddEvent(m.feed, d).1.Some? && g.published.Some? {
      BookStaysSynced(db, fed, BatchOp(l, g.s, g.published.value.envelope));
    }
  }

  lemma PrivStaysSynced(db: Db, m: Mem, g: Group)
    requires Synced(db, m) && K.Valid(m.kem) && WellFormed(g) && g.PrivGroup? && Grounded(m.tree, g)
    ensures Synced(db, GroupEffect(m, g).0)
  {
    hide F.Synced, T.Synced, LS.Synced, R.Synced, KT.Synced, M.Coherent, F.AddNullifiers, D.VerifyConsumerDisclosure,
      PrivDraft, K.RecordBatch, KT.BuffersBelow, R.Restageable;
    var l, elements := MainLog(g), Elements(g.published);
    var d := PrivDraft(l, g.s, elements);
    EntryStaysSynced(db.feed, m.feed, d, [g.nullifier]);
    KT.RecordStaysSynced(db.kem, m.kem, KemRecord(l, g.s));
    KT.RecordBuffersBelow(m.kem, KemRecord(l, g.s));
    D.ConsumerVerdictExact(elements, l.ev.disclosureHash, g.s.subtreeRoot, l.txHash, g.s.start);
    var leaves :=
      D.VerifyConsumerDisclosure(elements, l.ev.disclosureHash, g.s.subtreeRoot, l.txHash, g.s.start).leaves;
    if leaves.Some? {
      T.FillStaysSynced(db.leaves, m.tree, g.s.start, leaves.value, M.Public);
    }
  }

  lemma StreamStaysSynced(db: Db, m: Mem, g: Group)
    requires Synced(db, m) && K.Valid(m.kem) && WellFormed(g) && (g.RegistryGroup? || g.AcceptGroup?)
    ensures Synced(db, GroupEffect(m, g).0)
  {
    hide F.Synced, T.Synced, LS.Synced, R.Synced, KT.Synced, KT.BuffersBelow, R.Restageable, R.Apply, K.AcceptChunk;
    if g.RegistryGroup? {
      R.ApplyStaysSynced(db.modules, m.modules, GroupKey(g), g.moduleAddr, g.registered);
      R.ApplyStaysRestageable(m.modules, GroupKey(g), g.moduleAddr, g.registered);
    } else {
      var a := K.Accept(g.batchId, g.chunkIndex, g.data, GroupKey(g));
      KT.AcceptStaysSynced(db.kem, m.kem, a);
      KT.AcceptBuffersBelow(m.kem, a);
    }
  }

  /** One group, even one whose handler throws, leaves rows plus buffers equal to the read model. */
  lemma EffectStaysSynced(db: Db, m: Mem, g: Group)
    requires Synced(db, m) && K.Valid(m.kem) && WellFormed(g) && Grounded(m.tree, g) && LedgerFits(m.ledger, g)
    ensures Synced(db, GroupEffect(m, g).0)
  {
    hide Synced, GroupEffect, Grounded, LedgerFits;
    match g {
      case SpendGroup(_, _, _, _, _, _, _, _, _, _) => SpendStaysSynced(db, m, g);
      case BatchGroup(_, _, _, _, _, _) => BatchStaysSynced(db, m, g);
      case PrivGroup(_, _, _, _, _, _, _, _) => PrivStaysSynced(db, m, g);
      case _ => StreamStaysSynced(db, m, g);
    }
  }

  /** Bytes re-fetched at boot for an accepted chunk: they reach the read model, and the rows at the next
      flush. */
  lemma RefetchStaysSynced(db: Db, m: Mem, batchId: int, chunkIndex: int, data: string)
    requires Synced(db, m) && K.Valid(m.kem)
    ensures var m' := m.(kem := K.AttachChunkData(m.kem, batchId, chunkIndex, data).0);
            && K.Valid(m'.kem) && K.AllAdvance(m.kem, m'.kem) && Synced(db, m')
            && forall block :: Stage(db, m', block) == Dump(m', block)
  {
    hide T.Synced, F.Synced, LS.Synced, R.Synced, R.Restageable, K.AttachChunkData, KT.Synced, KT.BuffersBelow, Stage,
      Dump;
    K.AttachKeeps(m.kem, batchId, chunkIndex, data);
    KemParts(db, m);
    KT.AttachStaysSynced(db.kem, m.kem, batchId, chunkIndex, data);
    var m' := m.(kem := K.AttachChunkData(m.kem, batchId, chunkIndex, data).0);
    forall block
      ensures Stage(db, m', block) == Dump(m', block)
    {
      FlushLands(db, m', block);
    }
  }

  lemma KemParts(db: Db, m: Mem)
    requires Synced(db, m)
    ensures KT.Synced(db.kem, m.kem) && KT.BuffersBelow(m.kem)
  {
  }
}
