/** apps/indexer/src/ingest.ts applyLogs as it runs: loops over the logs, queues pushed and shifted,
    and the five stores updated in place. */
module Indexer {
  import opened Field
  import opened Imt
  import opened Chain
  import opened Ingest
  import opened Recording
  import opened FeedStore
  import opened KemStore
  import opened LedgerStore
  import opened Tree
  import D = Disclosure
  import F = Feed
  import K = Kem
  import L = Ledger
  import M = Mirror
  import R = Registry

  class Indexer {
    const tree: MirrorTree
    const store: PostgresStore
    const ledger: PostgresLedger
    const modules: R.ModuleRegistry
    const kem: KemChunkStore

    constructor ()
      ensures Valid() && View() == Ingest.EMPTY
      ensures fresh(tree) && fresh(tree.tree) && fresh(tree.tree.filledSubtrees) && fresh(store) && fresh(ledger)
      ensures fresh(modules) && fresh(kem)
    {
      tree := new MirrorTree();
      store := new PostgresStore();
      ledger := new PostgresLedger();
      modules := new R.ModuleRegistry();
      kem := new KemChunkStore();
    }

    ghost function View(): Mem
      reads tree, tree.tree, store, ledger, modules, kem
    {
      Mem(tree.View(), store.View(), ledger.View(), modules.View(), kem.View())
    }

    /** Everything but the frontier is in order. */
    ghost predicate StoresValid()
      reads store, ledger, kem
    {
      store.Counted() && ledger.Indexed() && K.Valid(kem.View())
    }

    ghost predicate Valid()
      reads tree, tree.tree, tree.tree.filledSubtrees, store, ledger, kem
    {
      tree.Valid() && StoresValid()
    }

    /** Pass 0. */
    method Admit(raw: seq<Log>) returns (kept: seq<Log>)
      ensures kept == Gate(Watched(View()), raw)
    {
      var owed := kem.Owed();
      var watched := modules.Watch(owed);
      kept := [];
      ghost var w := watched;
      var i := 0;
      while i < |raw|
        invariant i <= |raw| && Gate(w, raw) == kept + Gate(watched, raw[i..])
      {
        watched := Widened(watched, raw[i]);
        if Admitted(raw[i], watched) {
          kept := kept + [raw[i]];
        }
        assert raw[i..][1..] == raw[i + 1..];
        i := i + 1;
      }
      assert raw[|raw|..] == [];
    }

    /** Pass 1. */
    method DriveTree(logs: seq<Log>) returns (ok: bool)
      requires tree.Valid()
      modifies tree, tree.tree, tree.tree.filledSubtrees
      ensures (tree.View(), ok) == Pass1(old(tree.View()), logs)
      ensures ok ==> tree.Valid()
    {
      var i := 0;
      assert logs[0..] == logs;
      while i < |logs|
        invariant i <= |logs| && tree.Valid()
        invariant Pass1(old(tree.View()), logs) == Pass1(tree.View(), logs[i..])
      {
        hide M.ApplyAppend, M.ApplyAttach;
        assert logs[i..][1..] == logs[i + 1..] && logs[i..][0] == logs[i];
        ok := true;
        match logs[i].ev {
          case Appended(leafIndex, leaf, root) => ok := tree.ApplyAppend(leafIndex, leaf, root);
          case SubtreeAppended(start, subtreeRoot, root) => ok := tree.ApplyAttach(start, subtreeRoot, root);
          case _ =>
        }
        if !ok {
          return false;
        }
        i := i + 1;
      }
      ok := true;
    }

    /** The queues pass 2 takes from. */
    static method BuildQueues(logs: seq<Log>) returns (q: Queues)
      ensures q == QueuesOf(logs)
    {
      q := Queues(map[], map[], map[], map[]);
      var i := 0;
      assert logs[..0] == [];
      while i < |logs|
        invariant i <= |logs| && q == QueuesOf(logs[..i])
      {
        assert logs[..i + 1][..i] == logs[..i];
        q := Queued(q, logs[i]);
        i := i + 1;
      }
      assert logs[..|logs|] == logs;
    }

    method RecordAll(pairs: seq<Pair>)
      modifies tree
      ensures tree.View() == RecordPairs(old(tree.View()), pairs)
    {
      var i := 0;
      assert pairs[0..] == pairs;
      while i < |pairs|
        invariant i <= |pairs| && RecordPairs(old(tree.View()), pairs) == RecordPairs(tree.View(), pairs[i..])
      {
        assert pairs[i..][1..] == pairs[i + 1..];
        tree.RecordLeaf(pairs[i].leafIndex, pairs[i].leaf);
        i := i + 1;
      }
    }

    /** The ledger half, in authority mode. */
    method BookOp(op: L.OpEnvelope) returns (ok: bool)
      requires StoresValid() && L.WellShaped(op)
      modifies tree, ledger
      ensures StoresValid() && (View(), ok) == Book(old(View()), op)
    {
      hide L.DeriveOp, L.Apply, L.WellShaped;
      if !ARBITER {
        return true;
      }
      var fill: Option<seq<Felt>>;
      fill, ok := ledger.Apply(op);
      if fill.Some? {
        tree.FillBatch(op.batchStart, fill.value, M.Arbiter);
      }
    }

    /** Deposited, Transferred and the rest of the small ops, both rails. */
    method SpendOn(l: Log, pairs: seq<Pair>) returns (at: Option<nat>, ok: bool)
      requires StoresValid() && l.ev.Spent? && Parsed(l) && |pairs| == |l.ev.ocs|
      modifies tree, store, ledger
      ensures StoresValid() && (View(), at, ok) == Spend(old(View()), l, pairs)
      ensures SpendRecorded(old(View()), View(), ok, l, pairs)
    {
      hide L.WellShaped, Book, RecordPairs, F.AddNullifiers, SpentDraft, SpentOp, SpendRecorded;
      SpendRecords(View(), l, pairs);
      RecordAll(pairs);
      at := store.AddBuffered(SpentDraft(l, pairs));
      if at.None? {
        return None, true;
      }
      store.AddSpent(l.ev.nfs);
      ok := true;
      if !Consumer(l.ev.kind) {
        WellShapedSpend(l, pairs);
        ok := BookOp(SpentOp(l, pairs));
      }
      if !Withdrawal(l.ev.kind) {
        at := None;
      }
    }

    lemma WellShapedSpend(l: Log, pairs: seq<Pair>)
      requires l.ev.Spent? && Parsed(l) && |pairs| == |l.ev.ocs| && !Consumer(l.ev.kind)
      ensures L.WellShaped(SpentOp(l, pairs))
    {
    }

    /** Disbursed. */
    method DisburseOn(l: Log, s: Subtree, published: Option<Event>) returns (ok: bool)
      requires StoresValid() && l.ev.Disbursed?
      requires published.Some? ==>
                 published.value.DisburseCiphertexts? && EnvelopeFits(L.OpDisburse, published.value.envelope)
      modifies tree, store, ledger
      ensures StoresValid() && (View(), ok) == Disburse(old(View()), l, s, published)
      ensures BatchRecorded(old(View()), View(), ok, l, s, published)
    {
      hide L.WellShaped, Book, F.AddNullifiers, D.VerifyDisclosure, Consecutive, BatchRecorded;
      BatchRecords(View(), l, s, published);
      var cts := if published.Some? then published.value.elements else [];
      var disclosure := D.VerifyDisclosure(cts, l.ev.disclosureHash, l.txHash, s.start);
      var slices := if cts == [] then [] else Consecutive(s.start, B);
      var at := store.AddBuffered(F.Draft(KeyOf(l), l.blockNumber, F.DisburseEvent, slices, Some(disclosure), None,
                                          None, l.ev.payload));
      ok := true;
      if at.Some? {
        store.AddSpent([l.ev.nullifier]);
        if published.Some? && |cts| > 4 * B {
          WellShapedBatch(l, s, published.value.envelope);
          ok := BookOp(BatchOp(l, s, published.value.envelope));
        }
      }
    }

    lemma WellShapedBatch(l: Log, s: Subtree, envelope: L.Envelope)
      requires EnvelopeFits(L.OpDisburse, envelope)
      ensures L.WellShaped(BatchOp(l, s, envelope))
    {
    }

    /** DisbursedPriv. */
    method DisbursePrivOn(l: Log, s: Subtree, published: Option<Event>)
      requires StoresValid() && l.ev.DisbursedPriv?
      requires published.Some? ==> published.value.DisbursePrivDisclosure?
      modifies tree, store, kem
      ensures StoresValid() && View() == DisbursePriv(old(View()), l, s, published)
      ensures PrivRecorded(old(View()), View(), l, s, published)
    {
      hide F.AddNullifiers, D.VerifyConsumerDisclosure, PrivDraft, K.RecordBatch, PrivRecorded;
      PrivRecords(View(), l, s, published);
      var elements := Elements(published);
      K.RecordKeeps(kem.View(), KemRecord(l, s));
      var at := store.AddBuffered(PrivDraft(l, s, elements));
      if at.Some? {
        store.AddSpent([l.ev.nullifier]);
        kem.Record(KemRecord(l, s));
        var verdict := D.VerifyConsumerDisclosure(elements, l.ev.disclosureHash, s.subtreeRoot, l.txHash, s.start);
        if verdict.leaves.Some? {
          tree.FillBatch(s.start, verdict.leaves.value, M.Public);
        }
      }
    }

    /** WithdrawAnnouncement. */
    method AnnounceOn(queue: seq<nat>, ev: Event)
      requires StoresValid() && ev.WithdrawAnnouncement?
      modifies store
      ensures StoresValid() && View() == Announce(old(View()), queue, ev)
    {
      if queue != [] && queue[0] < |store.feed| && ev.stealth {
        store.Attach(queue[0], ev.announcement);
      }
    }

    /** The branch of a correlated log. */
    method Dispatch(q: Queues, all: seq<Log>, l: Log, got: Match) returns (q': Queues, ok: bool)
      requires StoresValid() && AllParsed(all) && Parsed(l)
      requires l.ev.Spent? ==> got.Landed? && |got.pairs| == |l.ev.ocs|
      requires l.ev.Disbursed? || l.ev.DisbursedPriv? ==> got.Attached?
      modifies tree, store, ledger, modules, kem
      ensures StoresValid() && (View(), q', ok) == Effects(old(View()), q, all, l, got)
    {
      hide Spend, Disburse, DisbursePriv, K.AcceptChunk, R.Apply, Parsed, Announce, Push, Rest, SpendRecorded,
        BatchRecorded, PrivRecorded, PublishedOf, EnvelopeFits, Waiting, K.Valid, NotesIndexed, FeedIndexed;
      q', ok := q, true;
      match l.ev {
        case Spent(_, _, _, _, _) =>
          var at: Option<nat>;
          at, ok := SpendOn(l, got.pairs);
          if at.Some? {
            q' := q.(withdraws := Push(q.withdraws, l.txHash, at.value));
          }
        case WithdrawAnnouncement(_, _) =>
          AnnounceOn(Waiting(q.withdraws, l.txHash), l.ev);
          q' := q.(withdraws := Rest(q.withdraws, l.txHash, 1));
        case Disbursed(_, _, _, _) =>
          PublishedIsParsed(all, l.txHash, got.subtree.start);
          ok := DisburseOn(l, got.subtree, PublishedOf(all, l.txHash, got.subtree.start, false));
        case DisbursedPriv(_, _, _, _, _) =>
          DisbursePrivOn(l, got.subtree, PublishedOf(all, l.txHash, got.subtree.start, true));
        case ModuleRegistered(a) => ok := modules.ApplyRegistered(KeyOf(l), a);
        case ModuleRemoved(a) => ok := modules.ApplyRemoved(KeyOf(l), a);
        case KemChunkAccepted(batchId, chunkIndex, data) =>
          ok := kem.Accept(K.Accept(batchId, chunkIndex, data, KeyOf(l)));
        case _ =>
      }
    }

    /** One log of pass 2: take from the queues, then dispatch. */
    method StepOn(q: Queues, all: seq<Log>, l: Log) returns (q': Queues, ok: bool)
      requires StoresValid() && AllParsed(all) && Parsed(l)
      modifies tree, store, ledger, modules, kem
      ensures StoresValid() && (View(), q', ok) == Step(old(View()), q, all, l)
    {
      hide Effects, Correlate, Parsed;
      var registry := R.State(modules.byAddress, modules.seen, modules.pendingUpserts);
      CorrelateFits(q, registry, l);
      var taken := Correlate(q, registry, l);
      if taken.1.None? {
        return taken.0, false;
      }
      q', ok := Dispatch(taken.0, all, l, taken.1.value);
    }

    /** Pass 2. */
    method Dispense(q0: Queues, logs: seq<Log>) returns (q: Queues, ok: bool)
      requires StoresValid() && AllParsed(logs)
      modifies tree, store, ledger, modules, kem
      ensures StoresValid() && (View(), q, ok) == Pass2(old(View()), q0, logs, logs)
    {
      hide Step, Parsed;
      q, ok := q0, true;
      var i := 0;
      assert logs[0..] == logs;
      while i < |logs|
        invariant i <= |logs| && StoresValid() && AllParsed(logs[i..])
        invariant Pass2(old(View()), q0, logs, logs) == Pass2(View(), q, logs, logs[i..])
      {
        assert logs[i..][1..] == logs[i + 1..] && logs[i..][0] == logs[i];
        q, ok := StepOn(q, logs, logs[i]);
        if !ok {
          return q, false;
        }
        i := i + 1;
      }
      ok := true;
    }

    /** applyLogs: gate, pass 1, queues, pass 2. It leaves the stores exactly as the functions say, thrown
        or not, and hands back what the queues still hold: the unconsumed anchors it warns about. */
    method ApplyLogs(raw: seq<Log>) returns (left: Queues, ok: bool)
      requires Valid() && AllParsed(raw)
      modifies tree, tree.tree, tree.tree.filledSubtrees, store, ledger, modules, kem
      ensures StoresValid() && (ok ==> Valid())
      ensures AllParsed(Gate(Watched(old(View())), raw))
      ensures (View(), left, ok) == ApplyKept(old(View()), Gate(Watched(old(View())), raw))
    {
      hide Pass1, Pass2, QueuesOf, Gate, Parsed;
      GateParsed(Watched(View()), raw);
      var kept := Admit(raw);
      left := BuildQueues(kept);
      ok := DriveTree(kept);
      if ok {
        left, ok := Dispense(left, kept);
      }
    }
  }
}
