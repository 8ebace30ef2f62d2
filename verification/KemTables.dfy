/** The durable side of KemChunkStore: kem_batches is insert-or-ignore, kem_chunks an upsert that
    never downgrades bytes to NULL. */
module KemTables {
  import opened Field
  import opened Tables
  import opened Chain
  import K = Kem

  datatype BatchRow = BatchRow(moduleAddr: Address, txHash: nat, chunkHashes: seq<int>, batchTimestamp: int,
                               outputs: nat)

  datatype Cell = Cell(data: Option<string>, txHash: Option<nat>)

  datatype Db = Db(batches: map<int, BatchRow>, chunks: map<(int, int), Cell>)

  function RowOf(b: K.Batch): BatchRow {
    BatchRow(b.moduleAddr, b.txHash, b.chunkHashes, b.batchTimestamp, b.outputs)
  }

  function Coalesce<T>(a: Option<T>, b: Option<T>): Option<T> {
    if a.Some? then a else b
  }

  function Upsert(t: map<(int, int), Cell>, r: K.ChunkRow): map<(int, int), Cell> {
    var key := (r.batchId, r.chunkIndex);
    t[key := if key in t then Cell(Coalesce(r.data, t[key].data), Coalesce(r.txHash, t[key].txHash))
      else Cell(r.data, r.txHash)]
  }

  function StageBatches(t: map<int, BatchRow>, batches: map<int, K.Batch>, ids: seq<int>): map<int, BatchRow> {
    if ids == [] then t
    else
      var rest, id := StageBatches(t, batches, ids[..|ids| - 1]), ids[|ids| - 1];
      if id in batches then InsertOrIgnore(rest, id, RowOf(batches[id])) else rest
  }

  function StageChunks(t: map<(int, int), Cell>, rows: seq<K.ChunkRow>): map<(int, int), Cell> {
    if rows == [] then t else Upsert(StageChunks(t, rows[..|rows| - 1]), rows[|rows| - 1])
  }

  /** flushInto. */
  function Stage(db: Db, s: K.State): Db {
    Db(StageBatches(db.batches, s.batches, s.pendingBatches), StageChunks(db.chunks, s.pendingChunks))
  }

  /** Everything the read model knows, as rows. */
  function Dump(s: K.State): Db
    requires K.Valid(s)
  {
    Db(map id | id in s.batches :: RowOf(s.batches[id]),
       map id, j | id in s.batches && 0 <= j < |s.batches[id].accepted| && s.batches[id].accepted[j] ::
         (id, j) := Cell(s.batches[id].chunks[j], s.batches[id].chunkTxs[j]))
  }

  function BootBatch(id: int, r: BatchRow, chunks: map<(int, int), Cell>): K.Batch {
    var k := |r.chunkHashes|;
    K.Batch(r.moduleAddr, r.txHash, r.chunkHashes, r.batchTimestamp, r.outputs,
            seq(k, j => if (id, j) in chunks then chunks[(id, j)].data else None),
            seq(k, j => (id, j) in chunks),
            seq(k, j => if (id, j) in chunks then chunks[(id, j)].txHash else None))
  }

  function Boot(db: Db): K.State {
    K.State(map id | id in db.batches :: BootBatch(id, db.batches[id], db.chunks), {}, [], [])
  }

  /** What survives a reboot: everything but the replay-dedup keys and the buffers. */
  function Core(s: K.State): K.State {
    s.(seen := {}, pendingBatches := [], pendingChunks := [])
  }

  lemma BootRestores(s: K.State)
    requires K.Valid(s)
    ensures Boot(Dump(s)) == Core(s)
  {
    var db := Dump(s);
    forall id | id in s.batches
      ensures BootBatch(id, db.batches[id], db.chunks) == s.batches[id]
    {
      var b := s.batches[id];
      var b' := BootBatch(id, RowOf(b), db.chunks);
      assert b'.chunks == b.chunks && b'.accepted == b.accepted && b'.chunkTxs == b.chunkTxs;
    }
  }

  /** The durable rows plus the buffers are the read model. */
  ghost predicate Synced(db: Db, s: K.State) {
    && K.Valid(s)
    && (forall i :: 0 <= i < |s.pendingBatches| ==> s.pendingBatches[i] in s.batches)
    && Stage(db, s) == Dump(s)
  }

  lemma {:induction false} StageBatchesAgree(t: map<int, BatchRow>, a: map<int, K.Batch>, b: map<int, K.Batch>,
                                             ids: seq<int>)
    requires forall i :: 0 <= i < |ids| ==> ids[i] in a && ids[i] in b && RowOf(a[ids[i]]) == RowOf(b[ids[i]])
    ensures StageBatches(t, a, ids) == StageBatches(t, b, ids)
  {
    if ids != [] {
      StageBatchesAgree(t, a, b, ids[..|ids| - 1]);
    }
  }

  lemma StageOneMore(t: map<(int, int), Cell>, rows: seq<K.ChunkRow>, r: K.ChunkRow)
    ensures StageChunks(t, rows + [r]) == Upsert(StageChunks(t, rows), r)
  {
    assert (rows + [r])[..|rows|] == rows;
  }

  lemma StageOneMoreBatch(t: map<int, BatchRow>, batches: map<int, K.Batch>, ids: seq<int>, id: int)
    requires id in batches
    ensures StageBatches(t, batches, ids + [id])
              == InsertOrIgnore(StageBatches(t, batches, ids), id, RowOf(batches[id]))
  {
    assert (ids + [id])[..|ids|] == ids;
  }

  predicate HasCell(s: K.State, p: (int, int)) {
    p.0 in s.batches && 0 <= p.1 < |s.batches[p.0].accepted| && s.batches[p.0].accepted[p.1]
  }

  lemma DumpCell(s: K.State, p: (int, int))
    requires K.Valid(s)
    ensures p in Dump(s).chunks <==> HasCell(s, p)
    ensures HasCell(s, p) ==>
              && |s.batches[p.0].accepted| == |s.batches[p.0].chunks| == |s.batches[p.0].chunkTxs|
              && Dump(s).chunks[p] == Cell(s.batches[p.0].chunks[p.1], s.batches[p.0].chunkTxs[p.1])
  {
    var (id, j) := p;
    if HasCell(s, (id, j)) {
      assert s.batches[id].accepted[j];
      assert (id, j) in Dump(s).chunks;
    }
  }

  lemma DumpRows(s: K.State)
    requires K.Valid(s)
    ensures Dump(s).batches == map id | id in s.batches :: RowOf(s.batches[id])
  {
  }

  /** One chunk taken or completed is one cell of the dump. */
  lemma DumpAfterChunk(s: K.State, s': K.State, id: int, j: nat, data: Option<string>, tx: Option<nat>)
    requires K.Valid(s) && K.Valid(s') && id in s.batches && j < |s.batches[id].chunks|
    requires s'.batches == s.batches[id := K.TakeChunk(s.batches[id], j, data, tx)]
    ensures Dump(s').batches == Dump(s).batches
    ensures Dump(s').chunks == Dump(s).chunks[(id, j) := Cell(data, tx)]
  {
    hide Dump;
    DumpRows(s);
    DumpRows(s');
    var want := Dump(s).chunks[(id, j) := Cell(data, tx)];
    forall p
      ensures p in Dump(s').chunks <==> p in want
      ensures p in want ==> Dump(s').chunks[p] == want[p]
    {
      DumpCell(s, p);
      DumpCell(s', p);
    }
  }

  lemma DumpAfterRecord(s: K.State, r: K.Recorded)
    requires K.Valid(s) && K.Valid(K.RecordBatch(s, r)) && r.key !in s.seen && r.batchId !in s.batches
    ensures Dump(K.RecordBatch(s, r)).batches == Dump(s).batches[r.batchId := RowOf(K.Fresh(r))]
    ensures Dump(K.RecordBatch(s, r)).chunks == Dump(s).chunks
  {
    hide Dump;
    var s' := K.RecordBatch(s, r);
    DumpRows(s);
    DumpRows(s');
    forall p
      ensures p in Dump(s').chunks <==> p in Dump(s).chunks
      ensures p in Dump(s).chunks ==> Dump(s').chunks[p] == Dump(s).chunks[p]
    {
      DumpCell(s, p);
      DumpCell(s', p);
    }
  }

  lemma RecordStaysSynced(db: Db, s: K.State, r: K.Recorded)
    requires Synced(db, s)
    ensures Synced(db, K.RecordBatch(s, r))
  {
    hide Dump, StageBatches, StageChunks, RowOf, K.Fresh, K.Valid;
    K.RecordKeeps(s, r);
    if r.key !in s.seen && r.batchId !in s.batches {
      var s' := K.RecordBatch(s, r);
      StageBatchesAgree(db.batches, s.batches, s'.batches, s.pendingBatches);
      StageOneMoreBatch(db.batches, s'.batches, s.pendingBatches, r.batchId);
      DumpHasBatches(s);
      DumpAfterRecord(s, r);
    }
  }

  lemma DumpHasBatches(s: K.State)
    requires K.Valid(s)
    ensures Dump(s).batches.Keys == s.batches.Keys
  {
  }

  /** A chunk change and its buffered row, whose upsert yields the new cell. */
  lemma ChunkStaysSynced(db: Db, s: K.State, s': K.State, id: int, j: nat, r: K.ChunkRow, data: Option<string>,
                         tx: Option<nat>)
    requires Synced(db, s) && K.Valid(s') && id in s.batches && j < |s.batches[id].chunks|
    requires s'.batches == s.batches[id := K.TakeChunk(s.batches[id], j, data, tx)]
    requires s'.pendingBatches == s.pendingBatches && s'.pendingChunks == s.pendingChunks + [r]
    requires Upsert(Dump(s).chunks, r) == Dump(s).chunks[(id, j) := Cell(data, tx)]
    ensures Synced(db, s')
  {
    hide Dump, StageBatches, StageChunks, Upsert, K.Valid;
    StageBatchesAgree(db.batches, s.batches, s'.batches, s.pendingBatches);
    StageOneMore(db.chunks, s.pendingChunks, r);
    DumpAfterChunk(s, s', id, j, data, tx);
  }

  lemma AcceptStaysSynced(db: Db, s: K.State, a: K.Accept)
    requires Synced(db, s)
    ensures Synced(db, K.AcceptChunk(s, a).0)
  {
    hide Stage;
    K.AcceptKeeps(s, a);
    var s' := K.AcceptChunk(s, a).0;
    if s'.pendingChunks != s.pendingChunks {
      ChunkStaysSynced(db, s, s', a.batchId, a.chunkIndex, s'.pendingChunks[|s.pendingChunks|], a.data,
                       Some(a.key.txHash));
    } else {
      SeenIsNotStaged(db, s, s'.seen);
    }
  }

  lemma SeenIsNotStaged(db: Db, s: K.State, seen: set<Key>)
    requires K.Valid(s)
    ensures Stage(db, s.(seen := seen)) == Stage(db, s) && Dump(s.(seen := seen)) == Dump(s)
  {
  }

  lemma AttachStaysSynced(db: Db, s: K.State, batchId: int, chunkIndex: int, data: string)
    requires Synced(db, s)
    ensures Synced(db, K.AttachChunkData(s, batchId, chunkIndex, data).0)
    ensures BuffersBelow(s) ==> BuffersBelow(K.AttachChunkData(s, batchId, chunkIndex, data).0)
  {
    hide Stage, BuffersBelow;
    if BuffersBelow(s) {
      AttachBuffersBelow(s, batchId, chunkIndex, data);
    }
    K.AttachKeeps(s, batchId, chunkIndex, data);
    var s' := K.AttachChunkData(s, batchId, chunkIndex, data).0;
    if s' != s {
      var b := s.batches[batchId];
      var tx := b.chunkTxs[chunkIndex];
      assert K.TakeChunk(b, chunkIndex, Some(data), tx) == b.(chunks := b.chunks[chunkIndex := Some(data)]);
      ChunkStaysSynced(db, s, s', batchId, chunkIndex, s'.pendingChunks[|s.pendingChunks|], Some(data), tx);
    }
  }

  /** Every buffered row is already subsumed by the read model... */
  ghost predicate BuffersBelow(s: K.State) {
    && (forall i :: 0 <= i < |s.pendingBatches| ==> s.pendingBatches[i] in s.batches)
    && forall i :: 0 <= i < |s.pendingChunks| ==>
         var r := s.pendingChunks[i];
         && r.batchId in s.batches
         && 0 <= r.chunkIndex < |s.batches[r.batchId].accepted| == |s.batches[r.batchId].chunks|
              == |s.batches[r.batchId].chunkTxs|
         && s.batches[r.batchId].accepted[r.chunkIndex]
         && (r.data.Some? ==> r.data == s.batches[r.batchId].chunks[r.chunkIndex])
         && (r.txHash.Some? ==> r.txHash == s.batches[r.batchId].chunkTxs[r.chunkIndex])
  }

  lemma RecordBuffersBelow(s: K.State, r: K.Recorded)
    requires K.Valid(s) && BuffersBelow(s)
    ensures BuffersBelow(K.RecordBatch(s, r))
  {
  }

  lemma AcceptBuffersBelow(s: K.State, a: K.Accept)
    requires K.Valid(s) && BuffersBelow(s)
    ensures BuffersBelow(K.AcceptChunk(s, a).0)
  {
  }

  lemma AttachBuffersBelow(s: K.State, batchId: int, chunkIndex: int, data: string)
    requires K.Valid(s) && BuffersBelow(s)
    ensures BuffersBelow(K.AttachChunkData(s, batchId, chunkIndex, data).0)
  {
  }

  /** ...so staging them again over rows that already have them changes nothing. */
  lemma RestageIsIdle(s: K.State)
    requires K.Valid(s) && BuffersBelow(s)
    ensures Stage(Dump(s), s) == Dump(s)
  {
    RestageBatches(s, s.pendingBatches);
    RestageChunks(s, s.pendingChunks);
  }

  lemma {:induction false} RestageBatches(s: K.State, ids: seq<int>)
    requires K.Valid(s) && forall i :: 0 <= i < |ids| ==> ids[i] in s.batches
    ensures StageBatches(Dump(s).batches, s.batches, ids) == Dump(s).batches
  {
    if ids != [] {
      RestageBatches(s, ids[..|ids| - 1]);
    }
  }

  lemma {:induction false} RestageChunks(s: K.State, rows: seq<K.ChunkRow>)
    requires BuffersBelow(s.(pendingChunks := rows)) && K.Valid(s)
    ensures StageChunks(Dump(s).chunks, rows) == Dump(s).chunks
  {
    if rows != [] {
      RestageChunks(s, rows[..|rows| - 1]);
      var r := rows[|rows| - 1];
      assert Dump(s).chunks[(r.batchId, r.chunkIndex)]
          == Cell(s.batches[r.batchId].chunks[r.chunkIndex], s.batches[r.batchId].chunkTxs[r.chunkIndex]);
    }
  }
}
