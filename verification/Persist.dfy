/** apps/indexer/src/persist.ts over the real participants: one transaction, any of its steps may fail,
    buffers dropped only after COMMIT. */
module Persist {
  import opened Field
  import opened Imt
  import opened Chain
  import opened Tables
  import opened Ingest
  import opened Durable
  import F = Feed
  import R = Registry
  import T = LeafTables
  import opened FeedStore
  import opened KemStore
  import opened LedgerStore
  import opened Tree

  /** The cursor as a participant. */
  class BlockCursor {
    const store: PostgresStore
    var target: int

    constructor (store: PostgresStore)
      ensures this.store == store && target == -1
    {
      this.store, target := store, -1;
    }

    method AdvanceTo(block: int)
      modifies this
      ensures target == block
    {
      target := block;
    }

    /** Throws exactly when nobody advanced it; otherwise only the cursor row is touched. */
    method FlushInto(db: F.Db) returns (r: Option<F.Db>)
      ensures r.Some? <==> target >= 0
      ensures r.Some? ==> r.value.cursor == target && r.value.events == db.events && r.value.nullifiers == db.nullifiers
    {
      if target < 0 {
        return None;
      }
      var db' := store.PersistCursorInto(db, target);
      r := Some(db');
    }

    method CommitFlush()
      modifies store`lastBlock
      ensures store.View() == old(store.View()).(lastBlock := target)
    {
      store.SetLastBlock(target);
    }
  }

  /** The leaf delta the store flushes for the tree. */
  method StageLeafRows(t: map<nat, Row>, rows: seq<Row>) returns (t': map<nat, Row>)
    ensures t' == T.Stage(t, rows)
  {
    t' := t;
    var i := 0;
    assert rows[..0] == [];
    while i < |rows|
      invariant i <= |rows| && t' == T.Stage(t, rows[..i])
    {
      assert rows[..i + 1][..i] == rows[..i];
      t' := InsertOrIgnore(t', rows[i].leafIndex, rows[i]);
      i := i + 1;
    }
    assert rows[..|rows|] == rows;
  }

  datatype Persisted = Committed | Thrown

  /** The declared participants, in flush order. */
  class Participants {
    const tree: MirrorTree
    const store: PostgresStore
    const ledger: PostgresLedger
    const modules: R.ModuleRegistry
    const kem: KemChunkStore
    const cursor: BlockCursor

    constructor (tree: MirrorTree, store: PostgresStore, ledger: PostgresLedger, modules: R.ModuleRegistry,
                 kem: KemChunkStore)
      ensures this.tree == tree && this.store == store && this.ledger == ledger && this.modules == modules
      ensures this.kem == kem
      ensures fresh(cursor) && cursor.store == store
    {
      this.tree, this.store, this.ledger, this.modules, this.kem := tree, store, ledger, modules, kem;
      cursor := new BlockCursor(store);
    }

    /** The whole read model. */
    ghost function View(): Mem
      reads tree, tree.tree, store, ledger, modules, kem
    {
      Mem(tree.View(), store.View(), ledger.View(), modules.View(), kem.View())
    }

    /** Every flushInto, in order, into the open transaction. Thrown when one of them, or the
        connection under it, does. */
    method FlushAll(db: Db) returns (r: Option<Db>)
      requires cursor.store == store
      ensures r.Some? ==> r.value == Stage(db, View(), cursor.target) && cursor.target >= 0
    {
      var fault: bool := *;
      var feed := store.FlushInto(db.feed);
      var leaves := StageLeafRows(db.leaves, tree.pendingLeaves);
      if fault {
        return None;
      }
      fault := *;
      var ledgerRows := ledger.FlushInto(db.ledger);
      if fault {
        return None;
      }
      fault := *;
      var moduleRows := modules.FlushInto(db.modules);
      if fault {
        return None;
      }
      fault := *;
      var kemRows := kem.FlushInto(db.kem);
      if fault {
        return None;
      }
      var last := cursor.FlushInto(feed);
      if last.None? {
        return None;
      }
      r := Some(Db(leaves, last.value, ledgerRows, moduleRows, kemRows));
    }

    /** Every commitFlush, in order. */
    method CommitAll()
      requires cursor.store == store
      modifies tree`pendingLeaves, store, ledger, modules, kem
      ensures View() == Flushed(old(View()), cursor.target)
    {
      store.CommitFlush();
      tree.ClearPendingLeaves();
      ledger.CommitFlush();
      modules.CommitFlush();
      kem.CommitFlush();
      cursor.CommitFlush();
    }

    /** persistAtomically. Either the transaction committed and every buffer is dropped, or it threw with
        every buffer intact: rolled back, or, when it was COMMIT's own report that got lost, in force. */
    method PersistAtomically(db: Db) returns (db': Db, r: Persisted)
      requires cursor.store == store
      modifies tree`pendingLeaves, store, ledger, modules, kem
      ensures r.Committed? ==>
                && cursor.target >= 0 && db' == Stage(db, old(View()), cursor.target)
                && View() == Flushed(old(View()), cursor.target)
      ensures r.Thrown? ==> View() == old(View()) && (db' == db || db' == Stage(db, View(), cursor.target))
      ensures cursor.target < 0 ==> r.Thrown? && db' == db
    {
      var txn := FlushAll(db);
      if txn.None? {
        return db, Thrown;
      }
      var committed: bool, reported: bool := *, *;
      if !committed {
        return db, Thrown;
      }
      if !reported {
        return txn.value, Thrown;
      }
      CommitAll();
      db', r := txn.value, Committed;
    }
  }
}
