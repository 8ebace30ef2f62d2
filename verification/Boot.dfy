/** A reboot: replay the leaf rows, rebuild the read models, and fill exactly the batches that were
    filled, the arbiter's from the recovered notes, the public ones from the feed. */
module Boot {
  import opened Field
  import opened Merkle
  import opened Imt
  import opened Chain
  import opened Tables
  import opened Ingest
  import opened Correlation
  import opened Effects
  import opened Replay
  import opened Views
  import opened Durable
  import opened Runs
  import F = Feed
  import FL = LedgerTables
  import KT = KemTables
  import L = Ledger
  import M = Mirror
  import R = Registry

  // ---- the boot ----------------------------------------------------------------------

  /** The commitments of the notes that lie in a block, in note order. */
  function CommitsIn(notes: seq<L.LedgerNote>, block: nat): seq<Felt> {
    if notes == [] then []
    else
      var n := notes[|notes| - 1];
      CommitsIn(notes[..|notes| - 1], block) + if Block(n.leafIndex) == block then [n.commitment] else []
  }

  /** The ledger's half: every batch block below `n` with a full set of notes is filled. */
  function LedgerFills(t: M.State, notes: seq<L.LedgerNote>, n: nat): M.State {
    if n == 0 then t
    else
      var t', run := LedgerFills(t, notes, n - 1), CommitsIn(notes, n - 1);
      if n - 1 in t'.batchRoots && |run| == B then M.FillBatch(t', Start(n - 1), run, M.Arbiter) else t'
  }

  /** A consumer disburse whose publish checked out. */
  predicate Publishable(e: F.Entry) {
    && e.draft.kind.DisbursePriv?
    && e.draft.disclosure.Some? && e.draft.disclosure.value.status.Verified?
    && e.draft.batchId.Some? && e.draft.outputCommitments.Some?
  }

  function FeedFills(t: M.State, feed: seq<F.Entry>): M.State {
    if feed == [] then t
    else
      var t', e := FeedFills(t, feed[..|feed| - 1]), feed[|feed| - 1];
      if Publishable(e) then M.FillBatch(t', e.draft.batchId.value, e.draft.outputCommitments.value, M.Public) else t'
  }

  ghost function Booted(db: Db): Mem {
    var tree := M.Replay(M.EMPTY, SelectOrdered(db.leaves));
    var feed, ledger := F.Boot(db.feed), FL.Boot(db.ledger);
    Mem(FeedFills(LedgerFills(tree, ledger.notes, Above(tree.batchRoots.Keys)), feed.feed),
        feed, ledger, R.Boot(db.modules), KT.Boot(db.kem))
  }

  // ---- the mirror with only some of its batches filled -------------------------------

  /** `t` with only the blocks of `fs` filled, those of `ps` publicly, and nothing buffered. */
  function Partial(t: M.State, fs: set<nat>, ps: set<nat>): M.State {
    var leaves := map i | i in t.leaves && (Block(i) !in t.batchRoots || Block(i) in fs) :: t.leaves[i];
    M.State(t.rows, leaves, t.batchRoots, fs, ps, [])
  }

  /** The block's slots hold `run`. */
  ghost predicate Holds(t: M.State, block: nat, run: seq<Felt>) {
    |run| == B && forall i: nat {:trigger i in t.leaves} :: Start(block) <= i < Start(block) + B ==>
      i in t.leaves && t.leaves[i] == run[i - Start(block)]
  }

  lemma PartialIsUnfilled(t: M.State)
    ensures M.Unfilled(t) == Partial(t, {}, {})
  {
  }

  lemma PartialIsAll(t: M.State)
    requires M.Coherent(t)
    ensures Partial(t, t.filled, t.publicFilled) == t.(pending := [])
  {
    assert Partial(t, t.filled, t.publicFilled).leaves == t.leaves;
  }

  lemma InBlock(i: nat, k: nat)
    ensures Start(k) <= i < Start(k) + B <==> Block(i) == k
  {
    StartIsMul(k);
    BlockBounds(i);
    if Start(k) <= i < Start(k) + B {
      BlockOfOffset(k, i - Start(k));
    }
  }

  lemma FillPartial(t: M.State, fs: set<nat>, ps: set<nat>, k: nat, run: seq<Felt>, source: M.Source)
    requires Holds(t, k, run) && k in t.batchRoots
    ensures M.FillBatch(Partial(t, fs, ps), Start(k), run, source)
              == Partial(t, fs + {k}, if source.Public? then ps + {k} else ps)
  {
    hide Start, Block;
    InBlock(Start(k), k);
    BlockOfStart(k);
    var was, now := M.FillBatch(Partial(t, fs, ps), Start(k), run, source).leaves, Partial(t, fs + {k}, ps).leaves;
    forall i: nat
      ensures i in was <==> i in now
      ensures i in now ==> was[i] == now[i]
    {
      InBlock(i, k);
    }
    assert was == now;
  }

  lemma BlockOfStart(k: nat)
    ensures Block(Start(k)) == k
  {
    BlockOfOffset(k, 0);
  }

  // ---- what the stores remember of the fills -----------------------------------------

  /** A publishable entry names a filled public block and holds its interior. */
  ghost predicate PublicEntryOk(t: M.State, e: F.Entry) {
    Publishable(e) ==>
      var k := Block(e.draft.batchId.value);
      && e.draft.batchId.value == Start(k) && k in t.batchRoots && k in t.publicFilled
      && Holds(t, k, e.draft.outputCommitments.value)
  }

  /** The blocks the feed publishes. */
  function PublicBlocks(feed: seq<F.Entry>): set<nat> {
    if feed == [] then {}
    else
      var e := feed[|feed| - 1];
      PublicBlocks(feed[..|feed| - 1]) + if Publishable(e) then {Block(e.draft.batchId.value)} else {}
  }

  /** A batch block has all its notes exactly when the arbiter filled it, with them. */
  ghost predicate NotesMatch(t: M.State, notes: seq<L.LedgerNote>, k: nat) {
    if k in t.filled && k !in t.publicFilled then Holds(t, k, CommitsIn(notes, k)) else CommitsIn(notes, k) == []
  }

  /** The feed and the ledger remember every fill, and nothing else. */
  ghost predicate FillsRemembered(m: Mem) {
    && (forall i :: 0 <= i < |m.feed.feed| ==> PublicEntryOk(m.tree, m.feed.feed[i]))
    && m.tree.publicFilled == PublicBlocks(m.feed.feed)
    && (forall k :: k in m.tree.batchRoots ==> NotesMatch(m.tree, m.ledger.notes, k))
  }

  /** The blocks below `n` the arbiter filled. */
  function ArbiterFilled(t: M.State, n: nat): set<nat> {
    set k | k in t.filled && k !in t.publicFilled && k < n
  }

  lemma ArbiterOneMore(t: M.State, n: nat)
    ensures ArbiterFilled(t, n + 1) == ArbiterFilled(t, n) + if n in t.filled && n !in t.publicFilled then {n} else {}
  {
  }

  lemma {:induction false} LedgerFillsAre(t: M.State, notes: seq<L.LedgerNote>, n: nat)
    requires M.Coherent(t) && forall k :: k in t.batchRoots ==> NotesMatch(t, notes, k)
    ensures LedgerFills(Partial(t, {}, {}), notes, n) == Partial(t, ArbiterFilled(t, n), {})
  {
    hide M.Coherent, Block, Start, Holds, CommitsIn, ArbiterFilled, M.FillBatch;
    BatchesHaveLeaves();
    CoherentFills(t);
    if n == 0 {
      NoneFilled(t);
    } else {
      LedgerFillsAre(t, notes, n - 1);
      ArbiterOneMore(t, n - 1);
      var before, run := ArbiterFilled(t, n - 1), CommitsIn(notes, n - 1);
      if n - 1 in t.batchRoots {
        HoldsLength(t, n - 1, run);
        if n - 1 in t.filled && n - 1 !in t.publicFilled {
          FillPartial(t, before, {}, n - 1, run, M.Arbiter);
        }
      }
    }
  }

  lemma NoneFilled(t: M.State)
    ensures ArbiterFilled(t, 0) == {}
  {
  }

  lemma BatchesHaveLeaves()
    ensures B >= 1
  {
  }

  lemma CoherentFills(t: M.State)
    requires M.Coherent(t)
    ensures t.publicFilled <= t.filled <= t.batchRoots.Keys
  {
  }

  lemma HoldsLength(t: M.State, k: nat, run: seq<Felt>)
    ensures Holds(t, k, run) ==> |run| == B
  {
  }

  lemma {:induction false} FeedFillsAre(t: M.State, feed: seq<F.Entry>, fs: set<nat>)
    requires forall i :: 0 <= i < |feed| ==> PublicEntryOk(t, feed[i])
    ensures FeedFills(Partial(t, fs, {}), feed) == Partial(t, fs + PublicBlocks(feed), PublicBlocks(feed))
  {
    hide Block, Start, Holds;
    var ps := PublicBlocks(feed);
    if feed == [] {
      assert fs + ps == fs;
    } else {
      var init, e := feed[..|feed| - 1], feed[|feed| - 1];
      FeedFillsAre(t, init, fs);
      assert PublicEntryOk(t, e);
      if Publishable(e) {
        var k, qs := Block(e.draft.batchId.value), PublicBlocks(init);
        FillPartial(t, fs + qs, qs, k, e.draft.outputCommitments.value, M.Public);
        assert fs + qs + {k} == fs + ps;
      }
    }
  }

  /** The two passes of fills give back exactly the filled mirror. */
  lemma FillsRestored(m: Mem, n: nat)
    requires M.Coherent(m.tree) && FillsRemembered(m) && forall k :: k in m.tree.batchRoots ==> k < n
    ensures FeedFills(LedgerFills(M.Unfilled(m.tree), m.ledger.notes, n), m.feed.feed) == m.tree.(pending := [])
  {
    hide M.Coherent, M.Unfilled, Partial, FeedFills, LedgerFills, PublicBlocks, NotesMatch, PublicEntryOk;
    var t := m.tree;
    CoherentFills(t);
    PartialIsUnfilled(t);
    LedgerFillsAre(t, m.ledger.notes, n);
    var fs := ArbiterFilled(t, n);
    FeedFillsAre(t, m.feed.feed, fs);
    assert fs + t.publicFilled == t.filled;
    PartialIsAll(t);
  }
}
