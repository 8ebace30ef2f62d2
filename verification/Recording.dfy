/** What the handlers of ingest.ts leave in the feed, the nullifier set, the ledger and the chunk store for
    one op's event, spelled out on the log and on what the op published. */
module Recording {
  import opened Field
  import opened Chain
  import opened Ingest
  import D = Disclosure
  import F = Feed
  import K = Kem
  import L = Ledger
  import M = Mirror
  import R = Registry

  /** One more entry, with the next seq and no announcement yet; the op's nonzero nullifiers join the set
      and nothing else does; the entry's verdict is an alarm unless it is a full match. */
  ghost predicate Gains(f: F.State, f': F.State, d: F.Draft, nfs: seq<Felt>) {
    && |f'.feed| == |f.feed| + 1 && f.feed <= f'.feed
    && f'.feed[|f.feed|] == F.Entry(|f.feed|, d, None)
    && f'.seen == f.seen + {d.key}
    && (forall nf :: nf in f'.nullifiers <==> nf in f.nullifiers || (nf in nfs && nf != 0))
    && f'.alarms == f.alarms + (if d.disclosure.Some? && d.disclosure.value.status != D.Verified
                                then [d.disclosure.value] else [])
    && f'.lastBlock == f.lastBlock
  }

  lemma FeedGains(f: F.State, d: F.Draft, nfs: seq<Felt>)
    requires d.key !in f.seen
    ensures F.AddEvent(f, d).1 == Some(|f.feed|)
    ensures Gains(f, F.AddNullifiers(F.AddEvent(f, d).0, nfs), d, nfs)
  {
    hide F.AddNullifiers;
    F.NullifiersKeep(F.AddEvent(f, d).0, nfs);
  }

  /** `n` consecutive leaves. */
  ghost predicate Spans(leafIndices: seq<nat>, start: nat, n: nat) {
    |leafIndices| == n && forall i {:trigger leafIndices[i]} :: 0 <= i < n ==> leafIndices[i] == start + i
  }

  lemma {:induction false} ConsecutiveSpans(start: nat, n: nat)
    ensures Spans(Consecutive(start, n), start, n)
  {
    if n > 0 {
      ConsecutiveSpans(start, n - 1);
    }
  }

  lemma {:induction false} IndicesAt(pairs: seq<Pair>)
    ensures |Indices(pairs)| == |Refs(pairs)| == |pairs|
    ensures forall i {:trigger pairs[i]} :: 0 <= i < |pairs| ==>
              Indices(pairs)[i] == pairs[i].leafIndex && Refs(pairs)[i] == L.LeafRef(pairs[i].leafIndex, pairs[i].leaf)
    decreases |pairs|
  {
    if pairs != [] {
      IndicesAt(pairs[1..]);
      forall i | 0 <= i < |pairs|
        ensures Indices(pairs)[i] == pairs[i].leafIndex
        ensures Refs(pairs)[i] == L.LeafRef(pairs[i].leafIndex, pairs[i].leaf)
      {
        if i > 0 {
          assert pairs[1..][i - 1] == pairs[i];
        }
      }
    }
  }

  // ---- what a log takes off the queues -------------------------------------------------

  /** A batch's material is that of the last log in the range that publishes for its transaction and start. */
  lemma {:induction false} PublishedIsLast(logs: seq<Log>, tx: nat, start: nat, consumer: bool)
    ensures var r := PublishedOf(logs, tx, start, consumer);
            && (r.None? ==>
                  forall i :: 0 <= i < |logs| ==> logs[i].txHash != tx || !ForBatch(logs[i].ev, start, consumer))
            && (r.Some? ==>
                  exists i :: 0 <= i < |logs| && logs[i].txHash == tx && ForBatch(logs[i].ev, start, consumer)
                              && r == Some(logs[i].ev)
                              && forall j :: i < j < |logs| ==>
                                   logs[j].txHash != tx || !ForBatch(logs[j].ev, start, consumer))
  {
    if logs != [] {
      PublishedIsLast(logs[..|logs| - 1], tx, start, consumer);
    }
  }

  /** A pool batch is published by its ciphertexts, a consumer batch by its disclosure. */
  predicate ForBatch(ev: Event, start: nat, consumer: bool) {
    || (!consumer && ev.DisburseCiphertexts? && ev.start == start)
    || (consumer && ev.DisbursePrivDisclosure? && ev.start == start)
  }

  /** The small ops the pool emits. */
  predicate PoolKind(kind: F.EventKind) {
    kind in {F.DepositEvent, F.TransferEvent, F.Transfer10Event, F.Transfer10x2Event, F.WithdrawEvent}
  }

  /** Their consumer twins. */
  predicate TwinKind(kind: F.EventKind) {
    kind in {F.DepositPriv, F.TransferPriv, F.Transfer10x2Priv, F.WithdrawPriv}
  }

  lemma {:induction false} NonzeroIsCount(nfs: seq<Felt>)
    ensures Nonzero(nfs) == |set i | 0 <= i < |nfs| && nfs[i] != 0|
  {
    if nfs != [] {
      var n := |nfs| - 1;
      NonzeroIsCount(nfs[..n]);
      var now := set i | 0 <= i < |nfs| && nfs[i] != 0;
      var was := set i | 0 <= i < |nfs[..n]| && nfs[..n][i] != 0;
      assert now == if nfs[n] != 0 then was + {n} else was;
    }
  }

  /** The transaction's next anchor is this emitter's, ever registered, and tells what its op did. */
  predicate Anchored(q: Queues, modules: R.State, l: Log, start: nat, nullifiers: nat, leaves: nat, subtreeRoot: Felt,
                     root: Felt)
  {
    var ops := Waiting(q.ops, l.txHash);
    && ops != [] && ops[0].moduleAddr == l.address && l.address in modules.byAddress
    && ops[0].start == start && ops[0].nullifierCount == nullifiers && ops[0].leafCount == leaves
    && ops[0].subtreeRoot == subtreeRoot && ops[0].root == root
  }

  /** A small op's event goes through exactly if the transaction's next inserts are its commitments in
      order and, from a module, the next anchor is its own. It is then given those inserts, and they and
      the anchor are gone. */
  lemma SpendTakesIff(q: Queues, modules: R.State, l: Log)
    requires l.ev.Spent? && Parsed(l)
    ensures var (q', got) := Correlate(q, modules, l);
            var tx, n := l.txHash, |l.ev.ocs|;
            var waiting, twin := Waiting(q.appended, tx), TwinKind(l.ev.kind);
            var own := n <= |waiting| && forall i :: 0 <= i < n ==> waiting[i].leaf == l.ev.ocs[i];
            && n > 0
            && (got.Some? <==>
                  own && (twin ==>
                            Anchored(q, modules, l, waiting[0].leafIndex,
                                     |set i | 0 <= i < |l.ev.nfs| && l.ev.nfs[i] != 0|, n, 0, waiting[n - 1].root)))
            && (got.Some? ==>
                  && got.value == Landed(waiting[..n])
                  && q'.appended == q.appended[tx := waiting[n..]]
                  && q'.ops == (if twin then q.ops[tx := Waiting(q.ops, tx)[1..]] else q.ops)
                  && q'.subtrees == q.subtrees && q'.withdraws == q.withdraws)
  {
    hide TakePairs, Nonzero;
    var waiting, n := Waiting(q.appended, l.txHash), |l.ev.ocs|;
    TakenIff(waiting, l.ev.ocs);
    NonzeroIsCount(l.ev.nfs);
    if n <= |waiting| {
      assert waiting[..n][n - 1] == waiting[n - 1];
    }
  }

  lemma {:induction false} TakenIff(waiting: seq<Pair>, ocs: seq<Felt>)
    ensures TakePairs(waiting, ocs)
         == if |ocs| <= |waiting| && (forall i :: 0 <= i < |ocs| ==> waiting[i].leaf == ocs[i]) then
              Some(waiting[..|ocs|]) else None
    decreases |ocs|
  {
    if ocs != [] && waiting != [] {
      var was, ends := waiting[1..], ocs[1..];
      TakenIff(was, ends);
      if |ocs| <= |waiting| {
        assert forall i :: 0 <= i < |ends| ==> (was[i].leaf == ends[i] <==> waiting[i + 1].leaf == ocs[i + 1]);
        assert forall i :: 0 < i < |ocs| ==> (waiting[i].leaf == ocs[i] <==> was[i - 1].leaf == ends[i - 1]);
        assert waiting[..|ocs|] == [waiting[0]] + was[..|ends|];
      }
    }
  }

  /** A batch's event goes through exactly if the transaction's next subtree has its root and, from a
      module, the next anchor is its own. It is then given that subtree. */
  lemma BatchTakesIff(q: Queues, modules: R.State, l: Log)
    requires l.ev.Disbursed? || l.ev.DisbursedPriv?
    ensures var (q', got) := Correlate(q, modules, l);
            var tx, twin := l.txHash, l.ev.DisbursedPriv?;
            var waiting := Waiting(q.subtrees, tx);
            && (got.Some? <==>
                  && waiting != [] && waiting[0].subtreeRoot == l.ev.subtreeRoot
                  && (twin ==>
                        Anchored(q, modules, l, waiting[0].start, 1, 0, l.ev.subtreeRoot, waiting[0].root)))
            && (got.Some? ==>
                  && got.value == Attached(waiting[0])
                  && q'.subtrees == q.subtrees[tx := waiting[1..]]
                  && q'.ops == (if twin then q.ops[tx := Waiting(q.ops, tx)[1..]] else q.ops)
                  && q'.appended == q.appended && q'.withdraws == q.withdraws)
  {
  }

  // ---- small ops ---------------------------------------------------------------------

  /** The entry of a small op: deposits and withdrawals of the pool name no leaves, the others all. */
  ghost predicate SpendEntry(d: F.Draft, l: Log, pairs: seq<Pair>)
    requires l.ev.Spent?
  {
    && d.key == Key(l.txHash, l.logIndex) && d.blockNumber == l.blockNumber && d.kind == l.ev.kind
    && d.payload == l.ev.payload && d.disclosure.None? && d.batchId.None? && d.outputCommitments.None?
    && if l.ev.kind == F.DepositEvent || l.ev.kind == F.WithdrawEvent then d.leafIndices == []
       else
         && |d.leafIndices| == |pairs|
         && forall i {:trigger pairs[i]} :: 0 <= i < |pairs| ==> d.leafIndices[i] == pairs[i].leafIndex
  }

  /** What the ledger is handed: this kind of op, its envelope, and where its outputs landed. */
  ghost predicate SpendEnvelope(op: L.OpEnvelope, l: Log, pairs: seq<Pair>)
    requires l.ev.Spent?
  {
    && op.key == Key(l.txHash, l.logIndex) && op.blockTimestamp == l.timestamp && op.envelope == l.ev.envelope
    && (l.ev.kind == F.DepositEvent ==> op.kind == L.OpDeposit)
    && (l.ev.kind == F.TransferEvent ==> op.kind == L.OpTransfer)
    && (l.ev.kind == F.Transfer10Event ==> op.kind == L.OpTransfer10)
    && (l.ev.kind == F.Transfer10x2Event ==> op.kind == L.OpTransfer10x2)
    && (l.ev.kind == F.WithdrawEvent ==> op.kind == L.OpWithdraw)
    && |op.outputLeaves| == |pairs|
    && forall i {:trigger pairs[i]} :: 0 <= i < |pairs| ==>
         op.outputLeaves[i] == L.LeafRef(pairs[i].leafIndex, pairs[i].leaf)
  }

  /** A small op's event, seen before or not, records its leaves. On first sight the feed gains its entry,
      its nullifiers are spent, and, if the pool emitted it and there is an authority key, the ledger
      applies it; a replay does none of that. */
  ghost predicate SpendRecorded(m: Mem, m': Mem, ok: bool, l: Log, pairs: seq<Pair>)
    requires l.ev.Spent?
  {
    && m'.tree == RecordPairs(m.tree, pairs) && m'.modules == m.modules && m'.kem == m.kem
    && if Key(l.txHash, l.logIndex) in m.feed.seen then m'.feed == m.feed && m'.ledger == m.ledger && ok
       else
         && (exists d :: SpendEntry(d, l, pairs) && Gains(m.feed, m'.feed, d, l.ev.nfs))
         && if ARBITER && PoolKind(l.ev.kind) then
              exists op :: SpendEnvelope(op, l, pairs) && L.WellShaped(op)
                           && m'.ledger == L.Apply(m.ledger, op).0 && ok == L.Apply(m.ledger, op).2
            else m'.ledger == m.ledger && ok
  }

  lemma SpendEnvelopeIs(l: Log, pairs: seq<Pair>)
    requires l.ev.Spent? && Parsed(l) && |pairs| == |l.ev.ocs| && PoolKind(l.ev.kind)
    ensures SpendEnvelope(SpentOp(l, pairs), l, pairs) && L.WellShaped(SpentOp(l, pairs))
    ensures !SpentOp(l, pairs).kind.OpDisburse?
  {
    hide Refs;
    IndicesAt(pairs);
  }

  lemma SpendEntryIs(l: Log, pairs: seq<Pair>)
    requires l.ev.Spent?
    ensures SpendEntry(SpentDraft(l, pairs), l, pairs)
  {
    hide Indices;
    IndicesAt(pairs);
  }

  lemma PoolKindIff(l: Log)
    requires l.ev.Spent? && Parsed(l)
    ensures PoolKind(l.ev.kind) <==> !Consumer(l.ev.kind)
  {
  }

  lemma SpendRecords(m: Mem, l: Log, pairs: seq<Pair>)
    requires l.ev.Spent? && Parsed(l) && |pairs| == |l.ev.ocs|
    ensures var (m', at, ok) := Spend(m, l, pairs);
            && SpendRecorded(m, m', ok, l, pairs)
            && at == if Withdrawal(l.ev.kind) && Key(l.txHash, l.logIndex) !in m.feed.seen then Some(|m.feed.feed|)
                     else None
  {
    hide RecordPairs, SpentDraft, SpentOp, L.Apply, L.WellShaped, F.AddNullifiers, SpendEntry, SpendEnvelope, Gains,
      Parsed, PoolKind, Consumer;
    var d := SpentDraft(l, pairs);
    SpendEntryIs(l, pairs);
    SpentKey(l, pairs);
    PoolKindIff(l);
    if d.key !in m.feed.seen {
      FeedGains(m.feed, d, l.ev.nfs);
    }
    if PoolKind(l.ev.kind) {
      SpendEnvelopeIs(l, pairs);
      NothingFilled(m.ledger, SpentOp(l, pairs));
    }
  }

  lemma SpentKey(l: Log, pairs: seq<Pair>)
    requires l.ev.Spent?
    ensures SpentDraft(l, pairs).key == KeyOf(l)
  {
  }

  /** Only a batch is filled. */
  lemma NothingFilled(s: L.State, op: L.OpEnvelope)
    requires L.WellShaped(op) && !op.kind.OpDisburse?
    ensures L.Apply(s, op).1.None?
  {
    hide L.Record;
  }

  // ---- batches -----------------------------------------------------------------------

  /** The entry of a pool batch: its block's leaves if anything was published, and the verdict on what was. */
  ghost predicate BatchEntry(d: F.Draft, l: Log, s: Subtree, elements: seq<Felt>)
    requires l.ev.Disbursed?
  {
    && d.key == Key(l.txHash, l.logIndex) && d.blockNumber == l.blockNumber && d.kind == F.DisburseEvent
    && d.payload == l.ev.payload && d.batchId.None? && d.outputCommitments.None?
    && (if elements == [] then d.leafIndices == [] else Spans(d.leafIndices, s.start, B))
    && d.disclosure == Some(D.VerifyDisclosure(elements, l.ev.disclosureHash, l.txHash, s.start))
  }

  ghost predicate BatchEnvelope(op: L.OpEnvelope, l: Log, s: Subtree, envelope: L.Envelope) {
    && op.kind == L.OpDisburse && op.key == Key(l.txHash, l.logIndex) && op.blockTimestamp == l.timestamp
    && op.envelope == envelope && op.batchStart == s.start && op.batchRoot == s.subtreeRoot
  }

  /** A pool batch, on first sight: its entry, its nullifier, and, if an authority tail was published and
      there is a key, the ledger's half, which fills the block it opens. A replay changes nothing. */
  ghost predicate BatchRecorded(m: Mem, m': Mem, ok: bool, l: Log, s: Subtree, published: Option<Event>)
    requires l.ev.Disbursed? && (published.Some? ==> published.value.DisburseCiphertexts?)
  {
    var elements := if published.Some? then published.value.elements else [];
    && m'.modules == m.modules && m'.kem == m.kem
    && if Key(l.txHash, l.logIndex) in m.feed.seen then m' == m && ok
       else
         && (exists d :: BatchEntry(d, l, s, elements) && Gains(m.feed, m'.feed, d, [l.ev.nullifier]))
         && if ARBITER && |elements| > 4 * B then
              exists op :: BatchEnvelope(op, l, s, published.value.envelope) && L.WellShaped(op)
                           && BatchBooked(m, m', ok, op)
            else m'.ledger == m.ledger && m'.tree == m.tree && ok
  }

  ghost predicate BatchBooked(m: Mem, m': Mem, ok: bool, op: L.OpEnvelope)
    requires L.WellShaped(op)
  {
    var (ledger, fill, done) := L.Apply(m.ledger, op);
    && m'.ledger == ledger && ok == done
    && m'.tree == if fill.Some? then M.FillBatch(m.tree, op.batchStart, fill.value, M.Arbiter) else m.tree
  }

  lemma BatchRecords(m: Mem, l: Log, s: Subtree, published: Option<Event>)
    requires l.ev.Disbursed?
    requires published.Some? ==>
               published.value.DisburseCiphertexts? && EnvelopeFits(L.OpDisburse, published.value.envelope)
    ensures var (m', ok) := Disburse(m, l, s, published); BatchRecorded(m, m', ok, l, s, published)
  {
    hide Consecutive, L.Apply, F.AddNullifiers, D.VerifyDisclosure, Gains, M.FillBatch;
    var cts := if published.Some? then published.value.elements else [];
    var verdict := D.VerifyDisclosure(cts, l.ev.disclosureHash, l.txHash, s.start);
    var slices := if cts == [] then [] else Consecutive(s.start, B);
    var d := F.Draft(KeyOf(l), l.blockNumber, F.DisburseEvent, slices, Some(verdict), None, None, l.ev.payload);
    ConsecutiveSpans(s.start, B);
    assert BatchEntry(d, l, s, cts);
    if d.key !in m.feed.seen {
      FeedGains(m.feed, d, [l.ev.nullifier]);
      if ARBITER && |cts| > 4 * B {
        var op := BatchOp(l, s, published.value.envelope);
        assert BatchEnvelope(op, l, s, published.value.envelope) && L.WellShaped(op);
        assert BatchBooked(m, Disburse(m, l, s, published).0, Disburse(m, l, s, published).1, op);
      }
    }
  }

  /** The entry of a consumer batch: leaves and commitments exactly for a publish of full length. */
  ghost predicate PrivEntry(d: F.Draft, l: Log, s: Subtree, elements: seq<Felt>)
    requires l.ev.DisbursedPriv?
  {
    && d.key == Key(l.txHash, l.logIndex) && d.blockNumber == l.blockNumber && d.kind == F.DisbursePriv
    && d.payload == l.ev.payload && d.batchId == Some(s.start)
    && (if |elements| == 6 * B then
          Spans(d.leafIndices, s.start, B) && d.outputCommitments == Some(elements[5 * B..6 * B])
        else d.leafIndices == [] && d.outputCommitments.None?)
    && d.disclosure == Some(D.VerifyConsumerDisclosure(elements, l.ev.disclosureHash, s.subtreeRoot, l.txHash,
                                                       s.start).result)
  }

  /** The chunk store's record of a consumer batch: the emitter owes all its chunks. */
  ghost predicate ChunksOwed(k: K.State, k': K.State, l: Log, s: Subtree)
    requires l.ev.DisbursedPriv?
  {
    if Key(l.txHash, l.logIndex) in k.seen || s.start in k.batches then k' == k
    else
      && k'.batches.Keys == k.batches.Keys + {s.start as int}
      && (forall id :: id in k.batches ==> k'.batches[id] == k.batches[id])
      && k'.seen == k.seen + {Key(l.txHash, l.logIndex)}
      && var b := k'.batches[s.start];
         && b.moduleAddr == l.address && b.txHash == l.txHash && b.chunkHashes == l.ev.chunkHashes
         && b.batchTimestamp == l.timestamp && b.outputs == B
         && |b.chunks| == |b.accepted| == |b.chunkTxs| == |l.ev.chunkHashes|
         && forall j :: 0 <= j < |b.chunks| ==> b.chunks[j].None? && !b.accepted[j] && b.chunkTxs[j].None?
  }

  lemma ChunksAreOwed(k: K.State, l: Log, s: Subtree)
    requires l.ev.DisbursedPriv?
    ensures ChunksOwed(k, K.RecordBatch(k, KemRecord(l, s)), l, s)
  {
  }

  /** A consumer batch, on first sight: its entry, its nullifier, the chunks it owes, and, for a publish
      that checks out in full, the block filled with the published run. The ledger has no part in it. */
  ghost predicate PrivRecorded(m: Mem, m': Mem, l: Log, s: Subtree, published: Option<Event>)
    requires l.ev.DisbursedPriv? && (published.Some? ==> published.value.DisbursePrivDisclosure?)
  {
    var elements := if published.Some? then published.value.elements else [];
    var verdict := D.VerifyConsumerDisclosure(elements, l.ev.disclosureHash, s.subtreeRoot, l.txHash, s.start);
    && m'.modules == m.modules && m'.ledger == m.ledger
    && if Key(l.txHash, l.logIndex) in m.feed.seen then m' == m
       else
         && (exists d :: PrivEntry(d, l, s, elements) && Gains(m.feed, m'.feed, d, [l.ev.nullifier]))
         && ChunksOwed(m.kem, m'.kem, l, s)
         && m'.tree == if verdict.leaves.Some? then M.FillBatch(m.tree, s.start, verdict.leaves.value, M.Public)
                       else m.tree
  }

  lemma PrivEntryIs(l: Log, s: Subtree, elements: seq<Felt>)
    requires l.ev.DisbursedPriv?
    ensures PrivEntry(PrivDraft(l, s, elements), l, s, elements)
  {
    hide Consecutive, D.VerifyConsumerDisclosure;
    ConsecutiveSpans(s.start, B);
  }

  lemma PrivRecords(m: Mem, l: Log, s: Subtree, published: Option<Event>)
    requires l.ev.DisbursedPriv? && (published.Some? ==> published.value.DisbursePrivDisclosure?)
    ensures PrivRecorded(m, DisbursePriv(m, l, s, published), l, s, published)
  {
    hide PrivDraft, PrivEntry, D.VerifyConsumerDisclosure, F.AddNullifiers, Gains, M.FillBatch, ChunksOwed,
      K.RecordBatch;
    var elements := Elements(published);
    var d := PrivDraft(l, s, elements);
    PrivEntryIs(l, s, elements);
    PrivKey(l, s, elements);
    ChunksAreOwed(m.kem, l, s);
    if d.key !in m.feed.seen {
      FeedGains(m.feed, d, [l.ev.nullifier]);
    }
  }

  lemma PrivKey(l: Log, s: Subtree, elements: seq<Felt>)
    requires l.ev.DisbursedPriv?
    ensures PrivDraft(l, s, elements).key == KeyOf(l)
  {
  }
}
