/** The KemChunkStore object: kemchunks.ts step by step, each method tied to Kem's functions. */
module KemStore {
  import opened Field
  import opened Chain
  import opened Tables
  import opened Kem
  import KT = KemTables

  lemma JoinedStep(chunks: seq<string>, i: nat)
    requires i < |chunks|
    ensures Joined(chunks[..i + 1]) == Joined(chunks[..i]) + Strip0x(chunks[i])
  {
    assert chunks[..i + 1] == chunks[..i] + [chunks[i]];
    JoinOneMore(chunks[..i], chunks[i]);
  }

  class KemChunkStore {
    var batches: map<int, Batch>
    var seen: set<Key>
    var pendingBatches: seq<int>
    var pendingChunks: seq<ChunkRow>

    ghost function View(): State
      reads this
    {
      State(batches, seen, pendingBatches, pendingChunks)
    }

    constructor ()
      ensures View() == EMPTY && Valid(View())
    {
      batches, seen, pendingBatches, pendingChunks := map[], {}, [], [];
    }

    method Record(r: Recorded)
      modifies this
      ensures View() == RecordBatch(old(View()), r)
    {
      if r.key in seen || r.batchId in batches {
        return;
      }
      seen := seen + {r.key};
      batches := batches[r.batchId := Fresh(r)];
      pendingBatches := pendingBatches + [r.batchId];
    }

    method Accept(a: Kem.Accept) returns (ok: bool)
      requires Valid(View())
      modifies this
      ensures (View(), ok) == AcceptChunk(old(View()), a) && Valid(View())
    {
      AcceptKeeps(View(), a);
      if a.key in seen {
        return true;
      }
      seen := seen + {a.key};
      if a.batchId !in batches {
        return true;
      }
      var b := batches[a.batchId];
      if a.chunkIndex < 0 || a.chunkIndex >= |b.chunkHashes| {
        return true;
      }
      if b.accepted[a.chunkIndex] {
        return true;
      }
      if a.data.Some? && Keccak(a.data.value) != b.chunkHashes[a.chunkIndex] {
        return false;
      }
      var tx := Some(a.key.txHash);
      batches := batches[a.batchId := TakeChunk(b, a.chunkIndex, a.data, tx)];
      pendingChunks := pendingChunks + [ChunkRow(a.batchId, a.chunkIndex, a.data, tx)];
      ok := true;
    }

    method Attach(batchId: int, chunkIndex: int, data: string) returns (ok: bool)
      requires Valid(View())
      modifies this
      ensures (View(), ok) == AttachChunkData(old(View()), batchId, chunkIndex, data) && Valid(View())
    {
      AttachKeeps(View(), batchId, chunkIndex, data);
      if batchId !in batches {
        return true;
      }
      var b := batches[batchId];
      if chunkIndex < 0 || chunkIndex >= |b.accepted| || !b.accepted[chunkIndex] || b.chunks[chunkIndex].Some? {
        return true;
      }
      if Keccak(data) != b.chunkHashes[chunkIndex] {
        return false;
      }
      batches := batches[batchId := b.(chunks := b.chunks[chunkIndex := Some(data)])];
      pendingChunks := pendingChunks + [ChunkRow(batchId, chunkIndex, Some(data), b.chunkTxs[chunkIndex])];
      ok := true;
    }

    /** pendingModules: a pass over the batches. */
    method Owed() returns (out: set<Address>)
      ensures out == PendingModules(View())
      ensures forall a :: a in out <==>
                exists id, j :: id in batches && batches[id].moduleAddr == a
                                && 0 <= j < |batches[id].accepted| && !batches[id].accepted[j]
    {
      forall a {
        OwedIff(View(), a);
      }
      out := {};
      var left := batches.Keys;
      while left != {}
        invariant left <= batches.Keys
        invariant out == set id | id in batches && id !in left && Incomplete(batches[id]) :: batches[id].moduleAddr
        decreases |left|
      {
        var id := PickOne(left);
        left := left - {id};
        if Incomplete(batches[id]) {
          out := out + {batches[id].moduleAddr};
        }
      }
    }

    /** assembled: concatenate the chunks in order and cut the whole into outputs. */
    method Assembled(batchId: int) returns (r: Assembly)
      ensures r == if batchId in batches then AssembledOf(batches[batchId]) else NotYet
    {
      if batchId !in batches || Bytes(batches[batchId].chunks).None? {
        return NotYet;
      }
      var b := batches[batchId];
      var chunks := Bytes(b.chunks).value;
      var all, i := "", 0;
      assert chunks[..0] == [];
      NothingJoined();
      while i < |chunks|
        invariant i <= |chunks| && all == Joined(chunks[..i])
      {
        JoinedStep(chunks, i);
        all := all + Strip0x(chunks[i]);
        i := i + 1;
      }
      assert chunks[..|chunks|] == chunks;
      r := if |all| != b.outputs * KEM_CT_BYTES * 2 then WrongLength else Assembly.Assembled(Split(all, b.outputs));
    }

    /** flushInto: batches insert-or-ignore, then chunks coalescing. */
    method FlushInto(db: KT.Db) returns (db': KT.Db)
      ensures db' == KT.Stage(db, View())
    {
      var t, i := db.batches, 0;
      assert pendingBatches[..0] == [];
      while i < |pendingBatches|
        invariant i <= |pendingBatches| && t == KT.StageBatches(db.batches, batches, pendingBatches[..i])
      {
        assert pendingBatches[..i + 1][..i] == pendingBatches[..i];
        if pendingBatches[i] in batches {
          t := InsertOrIgnore(t, pendingBatches[i], KT.RowOf(batches[pendingBatches[i]]));
        }
        i := i + 1;
      }
      assert pendingBatches[..|pendingBatches|] == pendingBatches;
      var c := StageRows(db.chunks, pendingChunks);
      db' := KT.Db(t, c);
    }

    method CommitFlush()
      modifies this
      ensures View() == old(View()).(pendingBatches := [], pendingChunks := [])
    {
      pendingBatches, pendingChunks := [], [];
    }
  }

  method StageRows(t: map<(int, int), KT.Cell>, rows: seq<ChunkRow>) returns (t': map<(int, int), KT.Cell>)
    ensures t' == KT.StageChunks(t, rows)
  {
    t' := t;
    var i := 0;
    assert rows[..0] == [];
    while i < |rows|
      invariant i <= |rows| && t' == KT.StageChunks(t, rows[..i])
    {
      assert rows[..i + 1][..i] == rows[..i];
      t' := KT.Upsert(t', rows[i]);
      i := i + 1;
    }
    assert rows[..|rows|] == rows;
  }
}
