/** Polls that are cut anywhere, replays of what was already applied, and where they land. */
module Machine {
  import opened Field
  import opened Imt
  import opened Chain
  import opened Ingest
  import opened Correlation
  import opened Effects
  import opened Replay
  import opened Views
  import opened Durable
  import opened Runs
  import D = Disclosure
  import F = Feed
  import FL = LedgerTables
  import K = Kem
  import L = Ledger
  import LS = LedgerSync
  import M = Mirror
  import R = Registry
  import T = LeafTables

  // ---- what an effect leaves alone ---------------------------------------------------

  lemma {:induction false} PairsKeepRows(t: M.State, pairs: seq<Pair>)
    ensures RecordPairs(t, pairs).rows == t.rows && RecordPairs(t, pairs).batchRoots == t.batchRoots
    decreases |pairs|
  {
    if pairs != [] {
      PairsKeepRows(M.RecordLeaf(t, pairs[0].leafIndex, pairs[0].leaf), pairs[1..]);
    }
  }

  lemma FillKeepsRows(t: M.State, t': M.State, s: Subtree, source: M.Source)
    requires FilledOrNot(t, t', s, source)
    ensures t'.rows == t.rows && t'.batchRoots == t.batchRoots
  {
  }

  lemma EffectKeepsRows(m: Mem, g: Group)
    requires K.Valid(m.kem) && WellFormed(g)
    ensures GroupEffect(m, g).0.tree.rows == m.tree.rows
  {
    hide GroupEffect, FilledOrNot, PairsOf;
    match g {
      case SpendGroup(_, _, _, _, _, _, _, _, _, _) =>
        SpendShape(m, g);
        PairsKeepRows(m.tree, PairsOf(g));
      case BatchGroup(_, _, _, _, _, _) =>
        BatchShape(m, g);
        FillKeepsRows(m.tree, GroupEffect(m, g).0.tree, g.s.(root := 0), M.Arbiter);
      case PrivGroup(_, _, _, _, _, _, _, _) =>
        PrivShape(m, g);
        FillKeepsRows(m.tree, GroupEffect(m, g).0.tree, g.s.(root := 0), M.Public);
      case _ => StreamShape(m, g);
    }
  }

  /** Replay keys only ever come from groups applied. */
  ghost predicate SeenWithin(m: Mem, gs: seq<Group>, n: nat)
    requires AllWellFormed(gs) && n <= |gs|
  {
    forall k :: k in m.modules.seen || k in m.kem.seen ==> exists j :: 0 <= j < n && GroupKey(gs[j]) == k
  }

  lemma EffectSees(m: Mem, g: Group)
    requires K.Valid(m.kem) && WellFormed(g)
    ensures var m' := GroupEffect(m, g).0;
            && m'.modules.seen <= m.modules.seen + {GroupKey(g)} && m'.kem.seen <= m.kem.seen + {GroupKey(g)}
            && m.modules.byAddress.Keys <= m'.modules.byAddress.Keys
  {
    hide GroupEffect, R.Apply, K.AcceptChunk, K.RecordBatch, FilledOrNot, PairsOf;
    match g {
      case SpendGroup(_, _, _, _, _, _, _, _, _, _) => SpendShape(m, g);
      case BatchGroup(_, _, _, _, _, _) => BatchShape(m, g);
      case PrivGroup(_, _, _, _, _, _, _, _) =>
        PrivShape(m, g);
        KemRecordSees(m.kem, KemRecord(MainLog(g), g.s));
      case RegistryGroup(_, a, registered) =>
        StreamShape(m, g);
        RegistrySees(m.modules, GroupKey(g), a, registered);
      case AcceptGroup(_, _, batchId, chunkIndex, data) =>
        StreamShape(m, g);
        KemSees(m.kem, K.Accept(batchId, chunkIndex, data, GroupKey(g)));
    }
  }

  lemma SeenStaysWithin(m: Mem, gs: seq<Group>, n: nat)
    requires AllWellFormed(gs) && n < |gs| && K.Valid(m.kem) && SeenWithin(m, gs, n)
    ensures SeenWithin(GroupEffect(m, gs[n]).0, gs, n + 1)
  {
    hide GroupEffect, GroupKey;
    EffectSees(m, gs[n]);
    forall k | k in GroupEffect(m, gs[n]).0.modules.seen || k in GroupEffect(m, gs[n]).0.kem.seen
      ensures exists j :: 0 <= j < n + 1 && GroupKey(gs[j]) == k
    {
      if k != GroupKey(gs[n]) {
        var j :| 0 <= j < n && GroupKey(gs[j]) == k;
      }
    }
  }

  /** Neither does the feed have a log of a group to come. */
  ghost predicate FedWithin(m: Mem, gs: seq<Group>, n: nat)
    requires AllWellFormed(gs) && n <= |gs|
  {
    forall k :: k in m.feed.seen ==> exists j :: 0 <= j < n && GroupKey(gs[j]) == k
  }

  lemma EffectFeeds(m: Mem, g: Group)
    requires K.Valid(m.kem) && WellFormed(g)
    ensures GroupEffect(m, g).0.feed.seen <= m.feed.seen + {GroupKey(g)}
  {
    hide GroupEffect, FilledOrNot, PairsOf;
    match g {
      case SpendGroup(_, _, _, _, _, _, _, _, _, _) => SpendShape(m, g);
      case BatchGroup(_, _, _, _, _, _) => BatchShape(m, g);
      case PrivGroup(_, _, _, _, _, _, _, _) => PrivShape(m, g);
      case _ => StreamShape(m, g);
    }
  }

  lemma {:induction false} CleanFeeds(gs: seq<Group>, n: nat)
    requires AllWellFormed(gs) && n <= |gs|
    ensures FedWithin(Clean(gs, n), gs, n)
  {
    hide GroupEffect, GroupKey, WellFormed, Clean, Inserted, FedWithin;
    if n == 0 {
      NothingFed(gs);
    } else {
      CleanFeeds(gs, n - 1);
      CleanUnfolds(gs, n);
      InsertedFeed(Clean(gs, n - 1), gs[n - 1]);
      EffectFeeds(Inserted(Clean(gs, n - 1), gs[n - 1]), gs[n - 1]);
      FedOneMore(Clean(gs, n - 1), Clean(gs, n), gs, n - 1);
    }
  }

  lemma InsertedFeed(m: Mem, g: Group)
    requires WellFormed(g)
    ensures Inserted(m, g).feed == m.feed && Inserted(m, g).kem == m.kem
  {
  }

  lemma NothingFed(gs: seq<Group>)
    requires AllWellFormed(gs)
    ensures FedWithin(Clean(gs, 0), gs, 0)
  {
  }

  lemma FedOneMore(m: Mem, m': Mem, gs: seq<Group>, n: nat)
    requires AllWellFormed(gs) && n < |gs| && FedWithin(m, gs, n) && m'.feed.seen <= m.feed.seen + {GroupKey(gs[n])}
    ensures FedWithin(m', gs, n + 1)
  {
    hide GroupKey, WellFormed;
    forall k | k in m'.feed.seen
      ensures exists j :: 0 <= j < n + 1 && GroupKey(gs[j]) == k
    {
      if k != GroupKey(gs[n]) {
        var j :| 0 <= j < n && GroupKey(gs[j]) == k;
      }
    }
  }

  lemma NextIsFresh(m: Mem, gs: seq<Group>, n: nat)
    requires AllWellFormed(gs) && DistinctKeys(gs) && n < |gs| && SeenWithin(m, gs, n)
    ensures Fresh(m, gs[n])
  {
    hide GroupKey;
  }

  // ---- the clean run -----------------------------------------------------------------

  /** Pass 1 of one group on top of exactly the groups before it. */
  lemma InsertedLands(db: Db, m: Mem, gs: seq<Group>, n: nat)
    requires AllWellFormed(gs) && Truthful([], Flatten(gs)) && n < |gs| && Synced(db, m)
    requires m.tree.rows == RowsUpTo(gs, n)
    ensures var m' := Inserted(m, gs[n]);
            && Synced(db, m') && m'.tree.rows == RowsUpTo(gs, n + 1) && View(m') == View(m)
            && Pass1(m.tree, LogsOf(gs[n])).1
  {
    hide LogsOf, WellFormed, Truthful, Flatten, Retained, T.Synced, F.Synced, LS.Synced, R.Synced;
    TruthfulGroup(gs, n);
    var rows := GroupRows(gs[n]);
    assert m.tree.rows == m.tree.rows + rows[..0];
    Pass1Advances(db.leaves, m.tree, m.tree.rows, LogsOf(gs[n]), rows, 0);
    assert rows[..|rows|] == rows;
    RetainedSame(m, Inserted(m, gs[n]));
  }

  lemma CleanStep(m: Mem, gs: seq<Group>, n: nat)
    requires AllWellFormed(gs) && n < |gs| && K.Valid(m.kem)
    requires Truthful([], Flatten(gs)) && Synced(NO_ROWS, m) && m.tree.rows == RowsUpTo(gs, n) && SeenWithin(m, gs, n)
    requires LedgerFits(Inserted(m, gs[n]).ledger, gs[n])
    ensures var m' := GroupEffect(Inserted(m, gs[n]), gs[n]).0;
            Synced(NO_ROWS, m') && m'.tree.rows == RowsUpTo(gs, n + 1) && SeenWithin(m', gs, n + 1)
  {
    hide Synced, GroupEffect, Truthful, WellFormed, LogsOf, RowsUpTo, LedgerFits;
    InsertedLands(NO_ROWS, m, gs, n);
    var m1 := Inserted(m, gs[n]);
    SeenSame(m1, m, gs, n);
    SyncedTree(NO_ROWS, m1);
    GroundedIn(NO_ROWS.leaves, m1.tree, gs, n);
    EffectStaysSynced(NO_ROWS, m1, gs[n]);
    EffectKeepsRows(m1, gs[n]);
    SeenStaysWithin(m1, gs, n);
  }

  /** The clean run never throws, never loses sync with its buffers and has its tree where the chain's is. */
  lemma {:induction false} CleanIsSynced(gs: seq<Group>, n: nat)
    requires AllWellFormed(gs) && n <= |gs|
    requires ChainOk(gs)
    ensures Synced(NO_ROWS, Clean(gs, n)) && Clean(gs, n).tree.rows == RowsUpTo(gs, n)
    ensures SeenWithin(Clean(gs, n), gs, n)
  {
    hide Synced, WellFormed, RowsUpTo, SeenWithin, Clean, ChainOk;
    if n == 0 {
      CleanStart(gs);
    } else {
      CleanIsSynced(gs, n - 1);
      CleanNext(gs, n - 1);
    }
  }

  lemma CleanNext(gs: seq<Group>, n: nat)
    requires AllWellFormed(gs) && n < |gs|
    requires ChainOk(gs) && Synced(NO_ROWS, Clean(gs, n)) && Clean(gs, n).tree.rows == RowsUpTo(gs, n)
    requires SeenWithin(Clean(gs, n), gs, n)
    ensures Synced(NO_ROWS, Clean(gs, n + 1)) && Clean(gs, n + 1).tree.rows == RowsUpTo(gs, n + 1)
    ensures SeenWithin(Clean(gs, n + 1), gs, n + 1)
  {
    hide Synced, GroupEffect, GroupRows, GroupOk, Truthful, WellFormed, LedgerFits, Inserted, RowsUpTo, SeenWithin,
      Clean;
    CleanUnfolds(gs, n + 1);
    OkFits(gs, n);
    CleanStep(Clean(gs, n), gs, n);
  }

  lemma CleanUnfolds(gs: seq<Group>, n: nat)
    requires AllWellFormed(gs) && n <= |gs|
    ensures n > 0 ==> Clean(gs, n) == GroupEffect(Inserted(Clean(gs, n - 1), gs[n - 1]), gs[n - 1]).0
  {
    hide GroupEffect, Inserted, WellFormed;
  }

  lemma CleanStart(gs: seq<Group>)
    requires AllWellFormed(gs)
    ensures Synced(NO_ROWS, Clean(gs, 0)) && Clean(gs, 0).tree.rows == RowsUpTo(gs, 0)
    ensures SeenWithin(Clean(gs, 0), gs, 0)
  {
    hide Synced, GroupEffect, WellFormed;
    NothingIsSynced();
  }

  lemma SyncedTree(db: Db, m: Mem)
    requires Synced(db, m)
    ensures T.Synced(db.leaves, m.tree)
  {
  }

  lemma OkFits(gs: seq<Group>, n: nat)
    requires AllWellFormed(gs) && n < |gs|
    requires ChainOk(gs)
    ensures GroupOk(Inserted(Clean(gs, n), gs[n]), gs[n])
    ensures LedgerFits(Inserted(Clean(gs, n), gs[n]).ledger, gs[n])
  {
    hide GroupEffect, LedgerFits, Attributed, Truthful, WellFormed;
    assert GroupOk(Inserted(Clean(gs, n), gs[n]), gs[n]);
  }

  // ---- where a read model stands -----------------------------------------------------

  /** The frontier holds the first `p` inserts of the chain; everything else stands after `q` groups,
      exactly as in the clean run; and rows plus buffers are in step. */
  ghost predicate AtPoint(db: Db, m: Mem, gs: seq<Group>, p: nat, q: nat)
    requires AllWellFormed(gs)
  {
    && Synced(db, m) && q <= |gs|
    && |RowsUpTo(gs, q)| <= p <= |RowsUpTo(gs, |gs|)|
    && m.tree.rows == RowsUpTo(gs, |gs|)[..p]
    && View(m) == View(Clean(gs, q))
    && SeenWithin(m, gs, q)
  }

  ghost predicate DoneBetween(m: Mem, gs: seq<Group>, c: nat, q: nat)
    requires AllWellFormed(gs) && q <= |gs|
  {
    forall j :: c <= j < q ==> Done(m, gs[j])
  }

  lemma RowsArePrefix(gs: seq<Group>, c: nat, n: nat)
    requires AllWellFormed(gs) && c <= n <= |gs|
    ensures RowsUpTo(gs, c) <= RowsUpTo(gs, n)
    ensures RowsUpTo(gs, n)[..|RowsUpTo(gs, c)|] == RowsUpTo(gs, c)
  {
    RowsBetween(gs, c, n);
  }

  /** The next group, fresh: it lands as it does in the clean run. */
  lemma GroupLands(db: Db, m: Mem, gs: seq<Group>, p: nat, q: nat)
    requires AllWellFormed(gs) && q < |gs| && |RowsUpTo(gs, q + 1)| <= p && K.Valid(m.kem)
    requires ChainOk(gs) && AtPoint(db, m, gs, p, q)
    ensures GroupEffect(m, gs[q]).1 && Attributed(m, gs[q])
    ensures AtPoint(db, GroupEffect(m, gs[q]).0, gs, p, q + 1)
    ensures Done(GroupEffect(m, gs[q]).0, gs[q])
  {
    hide GroupEffect, Synced, RowsUpTo, Truthful, WellFormed, View, Done, SeenWithin, GroupOk, Attributed, LedgerFits,
      Fresh;
    var g, clean := gs[q], Clean(gs, q);
    var m1 := Inserted(clean, g);
    CleanIsSynced(gs, q);
    ParamsOk(gs);
    InsertedLands(NO_ROWS, clean, gs, q);
    SeenSame(m1, clean, gs, q);
    NextIsFresh(m, gs, q);
    NextIsFresh(m1, gs, q);
    EffectRespectsView(m, m1, g);
    OkFits(gs, q);
    OkHolds(m1, m, g);
    RowsArePrefix(gs, q + 1, |gs|);
    PrefixIn(RowsUpTo(gs, |gs|), |RowsUpTo(gs, q + 1)|, p);
    SyncedTree(db, m);
    GroundedIn(db.leaves, m.tree, gs, q);
    EffectStaysSynced(db, m, g);
    EffectKeepsRows(m, g);
    SeenStaysWithin(m, gs, q);
    EffectIsDone(m, g);
  }

  lemma PrefixIn<A>(all: seq<A>, n: nat, p: nat)
    requires n <= p <= |all|
    ensures all[..n] <= all[..p]
  {
  }

  lemma ParamsOk(gs: seq<Group>)
    requires ChainOk(gs)
    ensures AllWellFormed(gs) && DistinctKeys(gs) && Truthful([], Flatten(gs))
  {
  }

  lemma SeenSame(m: Mem, m': Mem, gs: seq<Group>, n: nat)
    requires AllWellFormed(gs) && n <= |gs| && SeenWithin(m', gs, n) && m.modules == m'.modules && m.kem == m'.kem
    ensures SeenWithin(m, gs, n)
  {
  }

  /** What was promised of the clean state holds of any state that looks the same. */
  lemma OkHolds(a: Mem, b: Mem, g: Group)
    requires K.Valid(a.kem) && WellFormed(g) && View(a) == View(b) && GroupOk(a, g)
    ensures GroupEffect(a, g).1 && Attributed(b, g) && LedgerFits(b.ledger, g)
  {
    hide GroupEffect, LS.Fits, L.DeriveOp, L.WellShaped;
    if g.SpendGroup? && !Consumer(g.kind) {
      SpentShaped(g);
      FitsSame(a.ledger, b.ledger, SpentOp(MainLog(g), PairsOf(g)));
    }
    if g.BatchGroup? && g.published.Some? {
      BatchShaped(g);
      FitsSame(a.ledger, b.ledger, BatchOp(MainLog(g), g.s, g.published.value.envelope));
    }
  }

  lemma FitsSame(a: L.State, b: L.State, op: L.OpEnvelope)
    requires FL.Core(a) == FL.Core(b) && L.WellShaped(op) && BookFits(a, op)
    ensures BookFits(b, op)
  {
    hide L.DeriveOp, L.WellShaped, FL.LeafAscending, FL.DistinctCommitments, FL.DistinctAlarms;
    if ARBITER && L.DeriveOp(op).Some? {
      NotesRespectView(L.TakeKey(a, op.key), L.TakeKey(b, op.key), L.DeriveOp(op).value.outputs, op.key.txHash);
    }
  }

  lemma {:induction false} KnownGrows(gs: seq<Group>, i: nat, n: nat)
    requires AllWellFormed(gs) && i <= n <= |gs|
    ensures Clean(gs, i).modules.byAddress.Keys <= Clean(gs, n).modules.byAddress.Keys
  {
    hide GroupEffect, WellFormed, LogsOf;
    if i < n {
      KnownGrows(gs, i, n - 1);
      EffectSees(Inserted(Clean(gs, n - 1), gs[n - 1]), gs[n - 1]);
    }
  }

  /** A module once registered stays known, so a replayed op is still attributed. */
  lemma StillAttributed(db: Db, m: Mem, gs: seq<Group>, p: nat, q: nat, i: nat)
    requires AllWellFormed(gs) && i < q <= |gs|
    requires ChainOk(gs) && AtPoint(db, m, gs, p, q)
    ensures Attributed(m, gs[i])
  {
    hide GroupEffect, WellFormed, LogsOf, Synced, RowsUpTo, Truthful, LedgerFits, SeenWithin;
    OkFits(gs, i);
    KnownGrows(gs, i, q);
    ViewModules(m, Clean(gs, q));
  }

  lemma ViewModules(a: Mem, b: Mem)
    requires View(a) == View(b)
    ensures a.modules.byAddress == b.modules.byAddress
  {
  }

  lemma DoneBeforeStays(m: Mem, gs: seq<Group>, c: nat, q: nat)
    requires AllWellFormed(gs) && Truthful([], Flatten(gs)) && q < |gs| && K.Valid(m.kem) && DoneBetween(m, gs, c, q)
    requires Done(GroupEffect(m, gs[q]).0, gs[q])
    ensures DoneBetween(GroupEffect(m, gs[q]).0, gs, c, q + 1)
  {
    hide GroupEffect, WellFormed, LogsOf, Done, Truthful, Flatten, Apart;
    forall j | c <= j < q
      ensures Done(GroupEffect(m, gs[q]).0, gs[j])
    {
      GroupsApart(gs, j, q);
      DoneStays(m, gs[j], gs[q]);
    }
  }

  lemma EffectKeepsCursor(m: Mem, g: Group)
    requires K.Valid(m.kem) && WellFormed(g)
    ensures GroupEffect(m, g).0.feed.lastBlock == m.feed.lastBlock
  {
    hide L.DeriveOp, L.Apply, RecordPairs, SpentDraft, PairsOf, Book, D.VerifyDisclosure, D.VerifyConsumerDisclosure,
      PrivDraft, Consecutive, L.WellShaped, SpentOp, BatchOp;
    match g {
      case SpendGroup(_, _, _, _, _, _, _, _, _, _) => SpendKeepsCursor(m, g);
      case BatchGroup(_, _, _, _, _, _) => BatchKeepsCursor(m, g);
      case PrivGroup(_, _, _, _, _, _, _, _) =>
        NullifiersOnly(F.AddEvent(m.feed, PrivDraft(MainLog(g), g.s, Elements(g.published))).0, [g.nullifier]);
      case _ =>
    }
  }

  lemma SpendKeepsCursor(m: Mem, g: Group)
    requires K.Valid(m.kem) && WellFormed(g) && g.SpendGroup?
    ensures GroupEffect(m, g).0.feed.lastBlock == m.feed.lastBlock
  {
    hide L.DeriveOp, L.Apply, RecordPairs, SpentDraft, PairsOf, Book, SpentOp, L.WellShaped;
    var l, pairs := MainLog(g), PairsOf(g);
    var recorded := m.(tree := RecordPairs(m.tree, pairs));
    var feed := F.AddEvent(m.feed, SpentDraft(l, pairs)).0;
    NullifiersOnly(feed, g.nfs);
    if !Consumer(g.kind) {
      SpentShaped(g);
      BookShape(recorded.(feed := F.AddNullifiers(feed, g.nfs)), SpentOp(l, pairs));
    }
  }

  lemma BatchKeepsCursor(m: Mem, g: Group)
    requires K.Valid(m.kem) && WellFormed(g) && g.BatchGroup?
    ensures GroupEffect(m, g).0.feed.lastBlock == m.feed.lastBlock
  {
    hide L.DeriveOp, L.Apply, Book, D.VerifyDisclosure, Consecutive, L.WellShaped, BatchOp;
    var l := MainLog(g);
    var cts := if g.published.Some? then g.published.value.elements else [];
    var disclosure := D.VerifyDisclosure(cts, l.ev.disclosureHash, l.txHash, g.s.start);
    var slices := if cts == [] then [] else Consecutive(g.s.start, B);
    var feed := F.AddEvent(m.feed,
                           F.Draft(KeyOf(l), l.blockNumber, F.DisburseEvent, slices, Some(disclosure), None, None,
                                   l.ev.payload)).0;
    NullifiersOnly(feed, [g.nullifier]);
    if g.published.Some? {
      BatchShaped(g);
      BookShape(m.(feed := F.AddNullifiers(feed, [g.nullifier])), BatchOp(l, g.s, g.published.value.envelope));
    }
  }
}
