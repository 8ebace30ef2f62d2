/** The clean run remembers every fill where a reboot will look for it. */
module Remembered {
  import opened Field
  import opened Merkle
  import opened Imt
  import opened Chain
  import opened Ingest
  import opened Correlation
  import opened Effects
  import opened Replay
  import opened Views
  import opened Durable
  import opened Runs
  import opened Machine
  import opened Boot
  import D = Disclosure
  import F = Feed
  import K = Kem
  import L = Ledger
  import M = Mirror
  import T = LeafTables

  // ---- the stores keep remembering: the ledger ---------------------------------------

  function OutputsIn(outputs: seq<L.DerivedNote>, block: nat): seq<Felt> {
    if outputs == [] then []
    else
      var o := outputs[|outputs| - 1];
      OutputsIn(outputs[..|outputs| - 1], block) + if Block(o.leafIndex) == block then [o.commitment] else []
  }

  lemma {:induction false} RecordedCommits(s: L.State, outputs: seq<L.DerivedNote>, tx: nat, block: nat)
    ensures CommitsIn(L.RecordNotes(s, outputs, tx).notes, block)
              == CommitsIn(s.notes, block) + OutputsIn(outputs, block)
  {
    hide Block;
    if outputs != [] {
      var init, o := outputs[..|outputs| - 1], outputs[|outputs| - 1];
      RecordedCommits(s, init, tx, block);
      var was, now := L.RecordNotes(s, init, tx).notes, L.RecordNotes(s, outputs, tx).notes;
      assert now[..|was|] == was;
    }
  }

  lemma {:induction false} CommitsIgnoreFlags(a: seq<L.LedgerNote>, b: seq<L.LedgerNote>, block: nat)
    requires |a| == |b| && forall i :: 0 <= i < |a| ==>
               a[i].leafIndex == b[i].leafIndex && a[i].commitment == b[i].commitment
    ensures CommitsIn(a, block) == CommitsIn(b, block)
  {
    hide Block;
    if a != [] {
      CommitsIgnoreFlags(a[..|a| - 1], b[..|a| - 1], block);
    }
  }

  lemma {:induction false} MarkedNotes(s: L.State, cs: seq<Felt>)
    ensures var s' := L.MarkAllSpent(s, cs);
            && |s'.notes| == |s.notes|
            && forall i :: 0 <= i < |s.notes| ==>
                 s'.notes[i].leafIndex == s.notes[i].leafIndex && s'.notes[i].commitment == s.notes[i].commitment
  {
    if cs != [] {
      MarkedNotes(s, cs[..|cs| - 1]);
    }
  }

  lemma {:induction false} DraftsKeepNotes(s: L.State, drafts: seq<L.Draft>, op: L.OpEnvelope)
    ensures L.RecordDrafts(s, drafts, op).notes == s.notes
  {
    if drafts != [] {
      DraftsKeepNotes(s, drafts[..|drafts| - 1], op);
    }
  }

  /** What an op adds to a block. */
  function Added(s: L.State, op: L.OpEnvelope, block: nat): seq<Felt>
    requires L.WellShaped(op)
  {
    if op.key in s.applied || L.DeriveOp(op).None? then [] else OutputsIn(L.DeriveOp(op).value.outputs, block)
  }

  lemma AppliedCommits(s: L.State, op: L.OpEnvelope, block: nat)
    requires L.WellShaped(op)
    ensures CommitsIn(L.Apply(s, op).0.notes, block) == CommitsIn(s.notes, block) + Added(s, op, block)
  {
    hide L.DeriveOp, L.RecordNotes, L.MarkAllSpent, L.RecordDrafts, Block, OutputsIn, CommitsIn;
    if op.key !in s.applied && L.DeriveOp(op).Some? {
      var d := L.DeriveOp(op).value;
      var s1 := L.RecordNotes(L.TakeKey(s, op.key), d.outputs, op.key.txHash);
      var s2 := L.RecordAlarms(s1, d.alarms);
      RecordedCommits(L.TakeKey(s, op.key), d.outputs, op.key.txHash, block);
      MarkedNotes(s2, d.spent);
      CommitsIgnoreFlags(L.MarkAllSpent(s2, d.spent).notes, s2.notes, block);
      DraftsKeepNotes(L.MarkAllSpent(s2, d.spent), d.history, op);
    }
  }

  /** Every note lies below `n`. */
  ghost predicate NotesBelow(s: L.State, n: nat) {
    forall i :: 0 <= i < |s.notes| ==> s.notes[i].leafIndex < n
  }

  lemma {:induction false} NothingInBlock(notes: seq<L.LedgerNote>, block: nat)
    requires forall i :: 0 <= i < |notes| ==> Block(notes[i].leafIndex) != block
    ensures CommitsIn(notes, block) == []
  {
    hide Block;
    if notes != [] {
      NothingInBlock(notes[..|notes| - 1], block);
    }
  }

  ghost predicate OutputsBelow(outputs: seq<L.DerivedNote>, n: nat) {
    forall i :: 0 <= i < |outputs| ==> outputs[i].leafIndex < n
  }

  lemma {:induction false} RecordedBelow(s: L.State, outputs: seq<L.DerivedNote>, tx: nat, n: nat)
    requires NotesBelow(s, n) && OutputsBelow(outputs, n)
    ensures NotesBelow(L.RecordNotes(s, outputs, tx), n)
  {
    if outputs != [] {
      RecordedBelow(s, outputs[..|outputs| - 1], tx, n);
    }
  }

  lemma AppliedBelow(s: L.State, op: L.OpEnvelope, n: nat)
    requires L.WellShaped(op) && NotesBelow(s, n)
    requires (L.DeriveOp(op).Some? ==> OutputsBelow(L.DeriveOp(op).value.outputs, n))
    ensures NotesBelow(L.Apply(s, op).0, n)
  {
    hide L.DeriveOp, L.RecordNotes, L.MarkAllSpent, L.RecordDrafts;
    if op.key !in s.applied && L.DeriveOp(op).Some? {
      var d := L.DeriveOp(op).value;
      RecordedBelow(L.TakeKey(s, op.key), d.outputs, op.key.txHash, n);
      var s2 := L.RecordAlarms(L.RecordNotes(L.TakeKey(s, op.key), d.outputs, op.key.txHash), d.alarms);
      MarkedNotes(s2, d.spent);
      DraftsKeepNotes(L.MarkAllSpent(s2, d.spent), d.history, op);
    }
  }

  // ---- what deriveOp puts where ------------------------------------------------------

  lemma {:induction false} CheckedBelow(outputs: seq<L.Note>, known: seq<L.LeafRef>, n: nat)
    requires |known| <= |outputs| && forall i :: 0 <= i < |known| ==> known[i].leafIndex < n
    ensures OutputsBelow(L.CheckedNotes(outputs, known), n)
  {
    if known != [] {
      CheckedBelow(outputs, known[..|known| - 1], n);
    }
  }

  lemma {:induction false} CheckedOutside(outputs: seq<L.Note>, known: seq<L.LeafRef>, block: nat)
    requires |known| <= |outputs| && forall i :: 0 <= i < |known| ==> Block(known[i].leafIndex) != block
    ensures OutputsIn(L.CheckedNotes(outputs, known), block) == []
  {
    hide Block;
    if known != [] {
      CheckedOutside(outputs, known[..|known| - 1], block);
      var rest, all := L.CheckedNotes(outputs, known[..|known| - 1]), L.CheckedNotes(outputs, known);
      if |all| > |rest| {
        assert |all| == |rest| + 1 && all[..|rest|] == rest;
        assert all[|rest|].leafIndex == known[|known| - 1].leafIndex;
      } else {
        assert all == rest;
      }
    }
  }

  lemma BatchBelow(outputs: seq<L.Note>, k: nat)
    requires |outputs| <= B
    ensures OutputsBelow(L.BatchNotes(outputs, Start(k)), Start(k) + B)
  {
    hide Start, L.BatchNotes;
  }

  lemma {:induction false} BatchWithin(outputs: seq<L.Note>, k: nat, block: nat)
    requires |outputs| <= B
    ensures OutputsBelow(L.BatchNotes(outputs, Start(k)), Start(k) + B)
    ensures OutputsIn(L.BatchNotes(outputs, Start(k)), block) == if block == k then L.Commitments(outputs) else []
  {
    hide Block, Start, OutputsBelow;
    BatchBelow(outputs, k);
    if outputs != [] {
      var n := |outputs| - 1;
      BatchWithin(outputs[..n], k, block);
      InBlock(Start(k) + n, k);
      var all := L.BatchNotes(outputs, Start(k));
      assert all[..n] == L.BatchNotes(outputs[..n], Start(k));
    }
  }

  // ---- the stores keep remembering: the feed -----------------------------------------

  ghost predicate EntriesOk(t: M.State, feed: seq<F.Entry>) {
    forall i :: 0 <= i < |feed| ==> PublicEntryOk(t, feed[i])
  }

  /** The same events, whatever announcements they carry. */
  ghost predicate SameDrafts(a: seq<F.Entry>, b: seq<F.Entry>) {
    |a| == |b| && forall i :: 0 <= i < |a| ==> a[i].draft == b[i].draft
  }

  lemma {:induction false} PublicIgnoresAnnouncements(t: M.State, a: seq<F.Entry>, b: seq<F.Entry>)
    requires SameDrafts(a, b)
    ensures PublicBlocks(a) == PublicBlocks(b)
    ensures EntriesOk(t, a) ==> EntriesOk(t, b)
  {
    hide Holds, Block, Start;
    if a != [] {
      PublicIgnoresAnnouncements(t, a[..|a| - 1], b[..|b| - 1]);
      if EntriesOk(t, a) {
        forall i | 0 <= i < |b|
          ensures PublicEntryOk(t, b[i])
        {
          assert PublicEntryOk(t, a[i]);
        }
      }
    }
  }

  /** The feed after an entry and its nullifiers. */
  lemma FeedAfter(s: F.State, d: F.Draft, nfs: seq<Felt>)
    ensures F.AddNullifiers(F.AddEvent(s, d).0, nfs).feed
         == if d.key in s.seen then s.feed else s.feed + [F.Entry(|s.feed|, d, None)]
  {
    NullifiersOnly(F.AddEvent(s, d).0, nfs);
  }

  lemma PublicOneMore(t: M.State, feed: seq<F.Entry>, e: F.Entry)
    ensures PublicBlocks(feed + [e]) == PublicBlocks(feed) + if Publishable(e) then {Block(e.draft.batchId.value)}
              else {}
    ensures EntriesOk(t, feed) && PublicEntryOk(t, e) ==> EntriesOk(t, feed + [e])
  {
    hide Holds, Block, Start, Publishable, PublicEntryOk;
    assert (feed + [e])[..|feed|] == feed;
  }

  // ---- the stores keep remembering: the tree -----------------------------------------

  ghost predicate SameOn(t: M.State, t': M.State, k: nat) {
    forall i: nat {:trigger i in t'.leaves} :: Start(k) <= i < Start(k) + B ==>
      (i in t'.leaves <==> i in t.leaves) && (i in t.leaves ==> t'.leaves[i] == t.leaves[i])
  }

  lemma HoldsSame(t: M.State, t': M.State, k: nat, run: seq<Felt>)
    requires SameOn(t, t', k)
    ensures Holds(t, k, run) ==> Holds(t', k, run)
  {
    hide Start;
    if Holds(t, k, run) {
      forall i: nat | Start(k) <= i < Start(k) + B
        ensures i in t'.leaves && t'.leaves[i] == run[i - Start(k)]
      {
        assert i in t.leaves;
      }
    }
  }

  lemma RecordSpares(t: M.State, g: Group, k: nat)
    requires M.Coherent(t) && WellFormed(g) && g.SpendGroup? && Grounded(t, g) && k in t.batchRoots
    ensures SameOn(t, RecordPairs(t, PairsOf(g)), k)
    ensures forall i: nat :: g.start <= i < g.start + |g.ocs| ==> Block(i) != k
  {
    hide Start, Block, Leaves, Batches;
    RowsLieBelowFrontier(t.rows);
    var pairs := PairsOf(g);
    assert pairs != [] && pairs[0].leafIndex == g.start;
    RecordedLeaves(t, pairs);
    forall i: nat | g.start <= i < g.start + |g.ocs|
      ensures Block(i) != k
    {
      assert i in Leaves(t.rows);
    }
    forall i: nat | Start(k) <= i < Start(k) + B
      ensures var t' := RecordPairs(t, pairs);
              (i in t'.leaves <==> i in t.leaves) && (i in t.leaves ==> t'.leaves[i] == t.leaves[i])
    {
      InBlock(i, k);
    }
  }

  /** Filling one block leaves every other as it was, and holds the run itself. */
  lemma FillHolds(t: M.State, k: nat, run: seq<Felt>, source: M.Source, j: nat)
    requires |run| == B
    ensures var t' := M.FillBatch(t, Start(k), run, source);
            && Holds(t', k, run)
            && (j != k ==> SameOn(t, t', j))
  {
    hide Start, Block;
    var t' := M.FillBatch(t, Start(k), run, source);
    if j != k {
      forall i: nat | Start(j) <= i < Start(j) + B
        ensures (i in t'.leaves <==> i in t.leaves) && (i in t.leaves ==> t'.leaves[i] == t.leaves[i])
      {
        InBlock(i, j);
        InBlock(i, k);
      }
    }
  }

  // ---- one group ---------------------------------------------------------------------

  /** Entries stay right in a tree that fills no less and keeps the blocks they name. */
  lemma EntriesStay(t: M.State, t': M.State, feed: seq<F.Entry>)
    requires EntriesOk(t, feed) && t.batchRoots.Keys <= t'.batchRoots.Keys && t.publicFilled <= t'.publicFilled
    requires forall k {:trigger SameOn(t, t', k)} :: k in t.publicFilled ==> SameOn(t, t', k)
    ensures EntriesOk(t', feed)
  {
    hide SameOn, Holds, Start, Block;
    forall i | 0 <= i < |feed|
      ensures PublicEntryOk(t', feed[i])
    {
      assert PublicEntryOk(t, feed[i]);
      if Publishable(feed[i]) {
        var k := Block(feed[i].draft.batchId.value);
        assert SameOn(t, t', k);
        HoldsSame(t, t', k, feed[i].draft.outputCommitments.value);
      }
    }
  }

  lemma NotesMatchStay(t: M.State, t': M.State, notes: seq<L.LedgerNote>, notes': seq<L.LedgerNote>, k: nat)
    requires NotesMatch(t, notes, k) && CommitsIn(notes', k) == CommitsIn(notes, k) && SameOn(t, t', k)
    requires (k in t'.filled && k !in t'.publicFilled) <==> (k in t.filled && k !in t.publicFilled)
    ensures NotesMatch(t', notes', k)
  {
    hide SameOn, Holds;
    HoldsSame(t, t', k, CommitsIn(notes, k));
  }

  lemma SpendFeed(m: Mem, g: Group)
    requires K.Valid(m.kem) && WellFormed(g) && g.SpendGroup?
    ensures var d := SpentDraft(MainLog(g), PairsOf(g));
            && !Publishable(F.Entry(|m.feed.feed|, d, None))
            && SameDrafts(if d.key in m.feed.seen then m.feed.feed else m.feed.feed + [F.Entry(|m.feed.feed|, d, None)],
                          GroupEffect(m, g).0.feed.feed)
  {
    hide L.DeriveOp, L.Apply, RecordPairs, PairsOf, Book, L.WellShaped, SpentOp, Indices;
    var l := MainLog(g);
    var d := SpentDraft(l, PairsOf(g));
    var recorded := m.(tree := RecordPairs(m.tree, PairsOf(g)));
    FeedAfter(m.feed, d, g.nfs);
    if !Consumer(g.kind) {
      SpentShaped(g);
      BookShape(recorded.(feed := F.AddNullifiers(F.AddEvent(m.feed, d).0, g.nfs)), SpentOp(l, PairsOf(g)));
    }
  }

  lemma SpendLedger(m: Mem, g: Group)
    requires K.Valid(m.kem) && WellFormed(g) && g.SpendGroup?
    ensures var m' := GroupEffect(m, g).0;
            m'.ledger == m.ledger ||
            (!Consumer(g.kind) && (SpentShaped(g); m'.ledger == L.Apply(m.ledger, SpentOp(MainLog(g), PairsOf(g))).0))
  {
    hide L.DeriveOp, L.Apply, RecordPairs, PairsOf, L.WellShaped, SpentOp, SpentDraft, F.AddNullifiers;
    if !Consumer(g.kind) {
      SpentShaped(g);
    }
  }

  lemma {:induction false} RefsWithin(pairs: seq<Pair>)
    ensures forall i {:trigger Refs(pairs)[i]} :: 0 <= i < |pairs| ==> Refs(pairs)[i].leafIndex == pairs[i].leafIndex
    decreases |pairs|
  {
    if pairs != [] {
      RefsWithin(pairs[1..]);
    }
  }

  /** The notes of a small op lie on its own leaves. */
  lemma SpendNotes(s: L.State, g: Group, n: nat, block: nat)
    requires WellFormed(g) && g.SpendGroup? && !Consumer(g.kind) && L.WellShaped(SpentOp(MainLog(g), PairsOf(g)))
    requires NotesBelow(s, n) && g.start + |g.ocs| <= n
    ensures var op := SpentOp(MainLog(g), PairsOf(g));
            && NotesBelow(L.Apply(s, op).0, n)
            && ((forall i: nat :: g.start <= i < g.start + |g.ocs| ==> Block(i) != block) ==>
                  CommitsIn(L.Apply(s, op).0.notes, block) == CommitsIn(s.notes, block))
  {
    hide L.Apply, Block, CommitsIn, Refs, L.DeriveHistory, OutputsIn, L.CheckAlarms, L.Commitments;
    var op, pairs := SpentOp(MainLog(g), PairsOf(g)), PairsOf(g);
    RefsWithin(pairs);
    assert op.outputLeaves == Refs(pairs);
    forall i | 0 <= i < |op.outputLeaves|
      ensures op.outputLeaves[i].leafIndex == g.start + i
    {
      assert Refs(pairs)[i].leafIndex == pairs[i].leafIndex;
    }
    if L.DeriveOp(op).Some? && op.envelope.Notes? {
      CheckedBelow(op.envelope.outputs, op.outputLeaves, n);
      if forall i: nat :: g.start <= i < g.start + |g.ocs| ==> Block(i) != block {
        CheckedOutside(op.envelope.outputs, op.outputLeaves, block);
      }
    }
    NoOutputs(block);
    AppliedBelow(s, op, n);
    AppliedCommits(s, op, block);
  }

  lemma NoOutputs(block: nat)
    ensures OutputsIn([], block) == []
  {
  }

  /** Entries and public blocks of a feed that gained at most an unpublishable entry. */
  lemma SameFeed(t: M.State, t': M.State, feed: seq<F.Entry>, more: seq<F.Entry>, feed': seq<F.Entry>)
    requires EntriesOk(t, feed) && EntriesOk(t, feed) ==> EntriesOk(t', feed)
    requires |more| <= 1 && (more != [] ==> !Publishable(more[0])) && SameDrafts(feed + more, feed')
    ensures EntriesOk(t, feed) ==> EntriesOk(t', feed')
    ensures PublicBlocks(feed') == PublicBlocks(feed)
  {
    hide SameOn, Holds, Start, Block, EntriesOk;
    if more == [] {
      assert feed + more == feed;
    } else {
      assert more == [more[0]];
      PublicOneMore(t', feed, more[0]);
      NotPublic(t', more[0]);
    }
    PublicIgnoresAnnouncements(t', feed + more, feed');
  }

  lemma NotPublic(t: M.State, e: F.Entry)
    requires !Publishable(e)
    ensures PublicEntryOk(t, e)
  {
  }

  lemma SpendRemembers(m: Mem, g: Group, n: nat)
    requires K.Valid(m.kem) && WellFormed(g) && g.SpendGroup? && M.Coherent(m.tree) && Grounded(m.tree, g)
    requires FillsRemembered(m) && NotesBelow(m.ledger, n) && g.start + |g.ocs| <= n
    ensures FillsRemembered(GroupEffect(m, g).0) && NotesBelow(GroupEffect(m, g).0.ledger, n)
  {
    hide GroupEffect, M.Coherent, Grounded, SameOn, Holds, NotesMatch, PublicEntryOk, PairsOf, SpentDraft, Block, Start,
      L.WellShaped, SpentOp, PublicBlocks, Publishable, CommitsIn, NotesBelow, L.Apply, RecordPairs;
    var m', t, t' := GroupEffect(m, g).0, m.tree, GroupEffect(m, g).0.tree;
    SpendShape(m, g);
    RecordedFills(t, g);
    forall k | k in t.batchRoots
      ensures SameOn(t, t', k) && CommitsIn(m'.ledger.notes, k) == CommitsIn(m.ledger.notes, k)
    {
      RecordSpares(t, g, k);
      SpendLedger(m, g);
      if m'.ledger != m.ledger {
        SpentShaped(g);
        SpendNotes(m.ledger, g, n, k);
      }
    }
    SpendBelow(m, g, n);
    CoherentFills(t);
    EntriesStay(t, t', m.feed.feed);
    SpendFeed(m, g);
    var d := SpentDraft(MainLog(g), PairsOf(g));
    var more := if d.key in m.feed.seen then [] else [F.Entry(|m.feed.feed|, d, None)];
    assert m.feed.feed + [] == m.feed.feed;
    SameFeed(t, t', m.feed.feed, more, m'.feed.feed);
    forall k | k in t'.batchRoots
      ensures NotesMatch(t', m'.ledger.notes, k)
    {
      NotesMatchStay(t, t', m.ledger.notes, m'.ledger.notes, k);
    }
  }

  lemma SpendBelow(m: Mem, g: Group, n: nat)
    requires K.Valid(m.kem) && WellFormed(g) && g.SpendGroup? && NotesBelow(m.ledger, n) && g.start + |g.ocs| <= n
    ensures NotesBelow(GroupEffect(m, g).0.ledger, n)
  {
    hide GroupEffect, NotesBelow, L.Apply, SpentOp, L.WellShaped;
    SpendLedger(m, g);
    if GroupEffect(m, g).0.ledger != m.ledger {
      SpentShaped(g);
      SpendNotes(m.ledger, g, n, 0);
    }
  }

  lemma RecordedFills(t: M.State, g: Group)
    requires WellFormed(g) && g.SpendGroup?
    ensures var t' := RecordPairs(t, PairsOf(g));
            t'.filled == t.filled && t'.publicFilled == t.publicFilled && t'.batchRoots == t.batchRoots
  {
    RecordedLeaves(t, PairsOf(g));
  }

  /** The notes of an opened disburse are its whole batch, or none. */
  lemma BatchNotesLand(s: L.State, op: L.OpEnvelope, k: nat, n: nat, block: nat)
    requires L.WellShaped(op) && op.kind.OpDisburse? && op.batchStart == Start(k) && NotesBelow(s, n)
    requires op.batchStart + B <= n
    ensures var (s', fill, ok) := L.Apply(s, op);
            && NotesBelow(s', n)
            && CommitsIn(s'.notes, block)
            == CommitsIn(s.notes, block) + if fill.Some? && block == k then fill.value else []
  {
    hide L.Apply, Block, Start, CommitsIn, L.DeriveHistory, OutputsIn, L.BatchNotes, L.Commitments, NotesBelow, FoldRun,
      L.Record;
    if L.DeriveOp(op).Some? && op.envelope.Notes? {
      BatchWithin(op.envelope.outputs, k, block);
      NotesBelowMore(op.envelope.outputs, k, n);
    }
    NoOutputs(block);
    AppliedBelow(s, op, n);
    AppliedCommits(s, op, block);
    FillOf(s, op);
  }

  lemma NotesBelowMore(outputs: seq<L.Note>, k: nat, n: nat)
    requires OutputsBelow(L.BatchNotes(outputs, Start(k)), Start(k) + B) && Start(k) + B <= n
    ensures OutputsBelow(L.BatchNotes(outputs, Start(k)), n)
  {
  }

  lemma FillOf(s: L.State, op: L.OpEnvelope)
    requires L.WellShaped(op)
    ensures L.Apply(s, op).1
         == if op.key in s.applied || L.DeriveOp(op).None? then None else L.DeriveOp(op).value.batchFill
  {
  }

  /** A disburse either leaves tree and ledger alone or books its batch. */
  lemma BatchBooks(m: Mem, g: Group)
    requires K.Valid(m.kem) && WellFormed(g) && g.BatchGroup?
    ensures var m' := GroupEffect(m, g).0;
            || (m'.tree == m.tree && m'.ledger == m.ledger)
            || (g.published.Some? &&
                (BatchShaped(g);
                 var op := BatchOp(MainLog(g), g.s, g.published.value.envelope);
                 var (s', fill, ok) := L.Apply(m.ledger, op);
                 && m'.ledger == s'
                 && m'.tree == if fill.Some? then M.FillBatch(m.tree, g.s.start, fill.value, M.Arbiter) else m.tree))
  {
    hide L.DeriveOp, L.Apply, D.VerifyDisclosure, Consecutive, F.AddNullifiers, L.WellShaped;
    if g.published.Some? {
      BatchShaped(g);
    }
  }

  lemma BatchFeed(m: Mem, g: Group)
    requires K.Valid(m.kem) && WellFormed(g) && g.BatchGroup?
    ensures exists more ::
              && |more| <= 1 && (more != [] ==> !Publishable(more[0]))
              && SameDrafts(m.feed.feed + more, GroupEffect(m, g).0.feed.feed)
  {
    hide L.DeriveOp, L.Apply, Book, L.WellShaped, D.VerifyDisclosure, Consecutive, BatchOp;
    var l := MainLog(g);
    var cts := if g.published.Some? then g.published.value.elements else [];
    var disclosure := D.VerifyDisclosure(cts, l.ev.disclosureHash, l.txHash, g.s.start);
    var slices := if cts == [] then [] else Consecutive(g.s.start, B);
    var d := F.Draft(KeyOf(l), l.blockNumber, F.DisburseEvent, slices, Some(disclosure), None, None, l.ev.payload);
    FeedAfter(m.feed, d, [g.nullifier]);
    if g.published.Some? {
      BatchShaped(g);
      BookShape(m.(feed := F.AddNullifiers(F.AddEvent(m.feed, d).0, [g.nullifier])),
                BatchOp(l, g.s, g.published.value.envelope));
    }
    var more := if d.key in m.feed.seen then [] else [F.Entry(|m.feed.feed|, d, None)];
    assert m.feed.feed + [] == m.feed.feed;
    assert SameDrafts(m.feed.feed + more, GroupEffect(m, g).0.feed.feed);
  }

  lemma BatchRemembers(m: Mem, g: Group, k: nat, n: nat)
    requires K.Valid(m.kem) && WellFormed(g) && g.BatchGroup? && M.Coherent(m.tree)
    requires g.s.start == Start(k) && k in m.tree.batchRoots && k !in m.tree.filled
    requires FillsRemembered(m) && NotesBelow(m.ledger, n) && g.s.start + B <= n
    ensures FillsRemembered(GroupEffect(m, g).0) && NotesBelow(GroupEffect(m, g).0.ledger, n)
  {
    hide GroupEffect, M.Coherent, SameOn, Holds, NotesMatch, PublicEntryOk, Block, Start, L.WellShaped, BatchOp,
      PublicBlocks, Publishable, CommitsIn, NotesBelow, L.Apply, M.Overlay;
    var m', t, t' := GroupEffect(m, g).0, m.tree, GroupEffect(m, g).0.tree;
    CoherentFills(t);
    BatchBooks(m, g);
    BatchShape(m, g);
    BatchSpares(m, g, k, n);
    EntriesStay(t, t', m.feed.feed);
    BatchFeed(m, g);
    var more :| |more| <= 1 && (more != [] ==> !Publishable(more[0])) && SameDrafts(m.feed.feed + more, m'.feed.feed);
    SameFeed(t, t', m.feed.feed, more, m'.feed.feed);
  }

  lemma SameOnItself(t: M.State, t': M.State, j: nat)
    requires t == t'
    ensures SameOn(t, t', j)
  {
  }

  /** What a disburse does to the tree and the notes, block by block. */
  lemma BatchSpares(m: Mem, g: Group, k: nat, n: nat)
    requires K.Valid(m.kem) && WellFormed(g) && g.BatchGroup?
    requires g.s.start == Start(k) && k in m.tree.batchRoots && k !in m.tree.filled
    requires m.tree.publicFilled <= m.tree.filled
    requires NotesBelow(m.ledger, n) && g.s.start + B <= n
    requires forall j :: j in m.tree.batchRoots ==> NotesMatch(m.tree, m.ledger.notes, j)
    ensures var m' := GroupEffect(m, g).0;
            && NotesBelow(m'.ledger, n)
            && m'.tree.batchRoots == m.tree.batchRoots && m'.tree.publicFilled == m.tree.publicFilled
            && (forall j {:trigger SameOn(m.tree, m'.tree, j)} :: j in m.tree.publicFilled ==>
                SameOn(m.tree, m'.tree, j))
            && (forall j :: j in m'.tree.batchRoots ==> NotesMatch(m'.tree, m'.ledger.notes, j))
  {
    hide GroupEffect, SameOn, Holds, Block, Start, L.WellShaped, BatchOp, CommitsIn, NotesBelow, L.Apply, M.Overlay,
      NotesMatch;
    var m', t, t' := GroupEffect(m, g).0, m.tree, GroupEffect(m, g).0.tree;
    BatchBooks(m, g);
    forall j
      ensures j in t.publicFilled ==> SameOn(t, t', j)
      ensures j in t'.batchRoots ==> NotesMatch(t', m'.ledger.notes, j)
      ensures NotesBelow(m'.ledger, n)
      ensures t'.batchRoots == t.batchRoots && t'.publicFilled == t.publicFilled
    {
      BatchSparesOne(m, g, k, n, j);
    }
    BatchSparesOne(m, g, k, n, 0);
  }

  lemma BatchSparesOne(m: Mem, g: Group, k: nat, n: nat, j: nat)
    requires K.Valid(m.kem) && WellFormed(g) && g.BatchGroup?
    requires g.s.start == Start(k) && k in m.tree.batchRoots && k !in m.tree.filled
    requires m.tree.publicFilled <= m.tree.filled
    requires NotesBelow(m.ledger, n) && g.s.start + B <= n
    requires j in m.tree.batchRoots ==> NotesMatch(m.tree, m.ledger.notes, j)
    ensures var m' := GroupEffect(m, g).0;
            && NotesBelow(m'.ledger, n)
            && m'.tree.batchRoots == m.tree.batchRoots && m'.tree.publicFilled == m.tree.publicFilled
            && (j in m.tree.publicFilled ==> SameOn(m.tree, m'.tree, j))
            && (j in m'.tree.batchRoots ==> NotesMatch(m'.tree, m'.ledger.notes, j))
  {
    hide GroupEffect, SameOn, Holds, Block, Start, L.WellShaped, BatchOp, CommitsIn, NotesBelow, L.Apply, M.Overlay,
      L.DeriveOp, FoldRun;
    var m', t, t' := GroupEffect(m, g).0, m.tree, GroupEffect(m, g).0.tree;
    BatchBooks(m, g);
    if t' == t && m'.ledger == m.ledger {
      SameOnItself(t, t', j);
    } else {
      BatchShaped(g);
      var op := BatchOp(MainLog(g), g.s, g.published.value.envelope);
      BatchOpShape(g);
      BatchNotesLand(m.ledger, op, k, n, j);
      BookedFill(m.ledger, op);
      BlockOfStart(k);
      var fill := L.Apply(m.ledger, op).1;
      if fill.Some? {
        FillHolds(t, k, fill.value, M.Arbiter, j);
        FillShape(t, k, fill.value);
        if j == k {
          assert [] + fill.value == fill.value;
          assert CommitsIn(m'.ledger.notes, k) == fill.value;
        } else if j in t.batchRoots {
          assert CommitsIn(m'.ledger.notes, j) == CommitsIn(m.ledger.notes, j);
          NotesMatchStay(t, t', m.ledger.notes, m'.ledger.notes, j);
        }
      } else {
        SameOnItself(t, t', j);
        assert CommitsIn(m'.ledger.notes, j) == CommitsIn(m.ledger.notes, j);
      }
    }
  }

  lemma BatchOpShape(g: Group)
    requires WellFormed(g) && g.BatchGroup? && g.published.Some?
    ensures var op := BatchOp(MainLog(g), g.s, g.published.value.envelope);
            op.kind.OpDisburse? && op.batchStart == g.s.start
  {
  }

  lemma FillShape(t: M.State, k: nat, run: seq<Felt>)
    ensures var t' := M.FillBatch(t, Start(k), run, M.Arbiter);
            && t'.filled == t.filled + {Block(Start(k))} && t'.publicFilled == t.publicFilled
            && t'.batchRoots == t.batchRoots
  {
  }

  lemma PrivDraftPublishes(l: Log, s: Subtree, elements: seq<Felt>, seqNo: nat)
    requires l.ev.DisbursedPriv?
    ensures var d, v := PrivDraft(l, s, elements),
              D.VerifyConsumerDisclosure(elements, l.ev.disclosureHash, s.subtreeRoot, l.txHash, s.start);
            && (Publishable(F.Entry(seqNo, d, None)) <==> v.leaves.Some?)
            && d.batchId == Some(s.start)
            && (v.leaves.Some? ==> d.outputCommitments == v.leaves && |v.leaves.value| == B)
  {
    hide D.VerifyConsumerDisclosure;
    D.ConsumerVerdictExact(elements, l.ev.disclosureHash, s.subtreeRoot, l.txHash, s.start);
  }

  lemma PublicFillShape(t: M.State, k: nat, run: seq<Felt>)
    ensures var t' := M.FillBatch(t, Start(k), run, M.Public);
            && t'.filled == t.filled + {Block(Start(k))} && t'.publicFilled == t.publicFilled + {Block(Start(k))}
            && t'.batchRoots == t.batchRoots
  {
  }

  lemma PrivRemembers(m: Mem, g: Group, k: nat)
    requires K.Valid(m.kem) && WellFormed(g) && g.PrivGroup? && M.Coherent(m.tree)
    requires g.s.start == Start(k) && k in m.tree.batchRoots && k !in m.tree.filled && FillsRemembered(m)
    ensures FillsRemembered(GroupEffect(m, g).0) && GroupEffect(m, g).0.ledger == m.ledger
  {
    hide M.Coherent, SameOn, Holds, NotesMatch, PublicEntryOk, Block, Start, PublicBlocks, Publishable, CommitsIn,
      M.Overlay, D.VerifyConsumerDisclosure, PrivDraft, K.RecordBatch, F.AddNullifiers;
    var l, elements := MainLog(g), Elements(g.published);
    var d := PrivDraft(l, g.s, elements);
    FeedAfter(m.feed, d, [g.nullifier]);
    PrivDraftPublishes(l, g.s, elements, |m.feed.feed|);
    var leaves :=
      D.VerifyConsumerDisclosure(elements, l.ev.disclosureHash, g.s.subtreeRoot, l.txHash, g.s.start).leaves;
    BlockOfStart(k);
    CoherentFills(m.tree);
    if d.key !in m.feed.seen {
      var e := F.Entry(|m.feed.feed|, d, None);
      if leaves.Some? {
        PublicFilled(m, k, leaves.value, e);
      } else {
        NotPublic(m.tree, e);
        PublicOneMore(m.tree, m.feed.feed, e);
      }
    }
  }

  lemma PublicFilled(m: Mem, k: nat, run: seq<Felt>, e: F.Entry)
    requires FillsRemembered(m) && k in m.tree.batchRoots && k !in m.tree.filled && |run| == B
    requires m.tree.publicFilled <= m.tree.filled
    requires Publishable(e) && e.draft.batchId.value == Start(k) && e.draft.outputCommitments.value == run
    ensures FillsRemembered(m.(tree := M.FillBatch(m.tree, Start(k), run, M.Public),
                               feed := m.feed.(feed := m.feed.feed + [e])))
  {
    hide SameOn, Holds, Block, Start, PublicBlocks, Publishable, CommitsIn, M.FillBatch, NotesMatch;
    var t, t' := m.tree, M.FillBatch(m.tree, Start(k), run, M.Public);
    BlockOfStart(k);
    PublicFillShape(t, k, run);
    forall j
      ensures j in t.publicFilled ==> SameOn(t, t', j)
      ensures j in t'.batchRoots ==> NotesMatch(t', m.ledger.notes, j)
    {
      FillHolds(t, k, run, M.Public, j);
      if j == k {
        NowPublic(t, t', m.ledger.notes, k);
      } else if j in t.batchRoots {
        NotesMatchStay(t, t', m.ledger.notes, m.ledger.notes, j);
      }
    }
    EntriesStay(t, t', m.feed.feed);
    FillHolds(t, k, run, M.Public, k);
    PublicOneMore(t', m.feed.feed, e);
  }

  lemma NowPublic(t: M.State, t': M.State, notes: seq<L.LedgerNote>, k: nat)
    requires k in t.batchRoots ==> NotesMatch(t, notes, k)
    requires k !in t.filled && k in t'.publicFilled && k in t.batchRoots
    ensures NotesMatch(t', notes, k)
  {
  }

  // ---- the clean run -----------------------------------------------------------------

  lemma {:induction false} SinglesKeepBatches(rows: seq<Row>, more: seq<Row>)
    requires forall i :: 0 <= i < |more| ==> more[i].Single?
    ensures Batches(rows + more) == Batches(rows)
  {
    if more == [] {
      assert rows + more == rows;
    } else {
      assert (rows + more)[..|rows + more| - 1] == rows + more[..|more| - 1];
      SinglesKeepBatches(rows, more[..|more| - 1]);
    }
  }

  /** The block roots a group adds: its own, new, for a batch; none otherwise. */
  lemma BatchesAfter(gs: seq<Group>, n: nat)
    requires AllWellFormed(gs) && n < |gs| && Truthful([], Flatten(gs))
    ensures var was, now, g := Batches(RowsUpTo(gs, n)), Batches(RowsUpTo(gs, n + 1)), gs[n];
            && (!IsBatch(g) ==> now == was)
            && (IsBatch(g) ==>
                  && now == was[Block(g.s.start) := g.s.subtreeRoot] && Block(g.s.start) !in was
                  && g.s.start == Start(Block(g.s.start)) && NextOf(RowsUpTo(gs, n)) <= g.s.start)
  {
    hide LogsOf, WellFormed, Truthful, GroupRows, Batches, Flatten, NextOf;
    var rows, g := RowsUpTo(gs, n), gs[n];
    RowsOfGroup(g);
    TruthfulBetween(gs, n, n + 1);
    if IsBatch(g) {
      var r := Batch(g.s.start, g.s.subtreeRoot);
      OneMore(rows, r);
      NewBatchIsNew(rows, r);
      Bounds(gs, n);
      RowIsThere(rows + [r], |rows|);
    } else if g.SpendGroup? {
      forall i | 0 <= i < |GroupRows(g)|
        ensures GroupRows(g)[i].Single?
      {
      }
      SinglesKeepBatches(rows, GroupRows(g));
    } else {
      assert rows + [] == rows;
    }
  }

  lemma NoNotesYet(notes: seq<L.LedgerNote>, s: L.State, n: nat, k: nat)
    requires NotesBelow(s, n) && n <= Start(k)
    ensures CommitsIn(s.notes, k) == []
  {
    hide Block, Start;
    forall i | 0 <= i < |s.notes|
      ensures Block(s.notes[i].leafIndex) != k
    {
      InBlock(s.notes[i].leafIndex, k);
    }
    NothingInBlock(s.notes, k);
  }

  /** Pass 1 of a group: its block, if any, is new, unfilled and without notes. */
  lemma InsertRemembers(m: Mem, m1: Mem, was: map<nat, Felt>, k: nat, root: Felt, n: nat)
    requires FillsRemembered(m) && m.tree.batchRoots == was && m.tree.publicFilled <= m.tree.filled <= was.Keys
    requires m1 == m.(tree := m1.tree) && m1.tree.leaves == m.tree.leaves && m1.tree.filled == m.tree.filled
    requires m1.tree.publicFilled == m.tree.publicFilled
    requires m1.tree.batchRoots == was ||
             (m1.tree.batchRoots == was[k := root] && k !in was && NotesBelow(m.ledger, n) && n <= Start(k))
    ensures FillsRemembered(m1)
  {
    hide Holds, Start, Block, CommitsIn, PublicBlocks, NotesBelow;
    forall j
      ensures SameOn(m.tree, m1.tree, j)
      ensures j in m1.tree.batchRoots ==> NotesMatch(m1.tree, m.ledger.notes, j)
    {
      if j in was {
        assert NotesMatch(m.tree, m.ledger.notes, j);
        HoldsSame(m.tree, m1.tree, j, CommitsIn(m.ledger.notes, j));
      } else if j in m1.tree.batchRoots {
        NoNotesYet(m.ledger.notes, m.ledger, n, j);
      }
    }
    EntriesStay(m.tree, m1.tree, m.feed.feed);
  }

  lemma BelowMore(s: L.State, a: nat, b: nat)
    requires NotesBelow(s, a) && a <= b
    ensures NotesBelow(s, b)
  {
  }

  lemma NothingRemembered()
    ensures FillsRemembered(Ingest.EMPTY) && NotesBelow(L.EMPTY, 0)
  {
  }

  lemma GroupRemembers(m: Mem, g: Group, n: nat)
    requires K.Valid(m.kem) && WellFormed(g) && M.Coherent(m.tree) && Grounded(m.tree, g)
    requires FillsRemembered(m) && NotesBelow(m.ledger, n)
    requires HasLeaves(g) ==> First(g) + Width(g) <= n
    requires IsBatch(g) ==> Block(g.s.start) !in m.tree.filled
    ensures FillsRemembered(GroupEffect(m, g).0) && NotesBelow(GroupEffect(m, g).0.ledger, n)
  {
    hide GroupEffect, M.Coherent, FillsRemembered, NotesBelow, Block, Start;
    match g {
      case SpendGroup(_, _, _, _, _, _, _, _, _, _) => SpendRemembers(m, g, n);
      case BatchGroup(_, _, _, _, _, _) => BatchRemembers(m, g, Block(g.s.start), n);
      case PrivGroup(_, _, _, _, _, _, _, _) => PrivRemembers(m, g, Block(g.s.start));
      case _ =>
        StreamShape(m, g);
        SameRemembers(m, GroupEffect(m, g).0);
    }
  }

  lemma SameRemembers(m: Mem, m': Mem)
    requires FillsRemembered(m) && m'.tree == m.tree && m'.feed == m.feed && m'.ledger == m.ledger
    ensures FillsRemembered(m')
  {
  }

  lemma InsertStep(gs: seq<Group>, n: nat)
    requires AllWellFormed(gs) && n < |gs|
    requires ChainOk(gs)
    requires FillsRemembered(Clean(gs, n)) && NotesBelow(Clean(gs, n).ledger, NextOf(RowsUpTo(gs, n)))
    ensures var m1, g := Inserted(Clean(gs, n), gs[n]), gs[n];
            && FillsRemembered(m1) && M.Coherent(m1.tree) && (IsBatch(g) ==> Block(g.s.start) !in m1.tree.filled)
  {
    hide Synced, GroupEffect, GroupRows, GroupOk, Truthful, WellFormed, FillsRemembered, NotesBelow, Batches, NextOf,
      Grounded, LogsOf, M.Coherent, RowsUpTo, Inserted, Clean;
    var m, g := Clean(gs, n), gs[n];
    var m1 := Inserted(m, g);
    ParamsOk(gs);
    CleanIsSynced(gs, n);
    InsertedLands(NO_ROWS, m, gs, n);
    InsertedShape(gs, n);
    BatchesAfter(gs, n);
    CoherentOf(NO_ROWS.leaves, m.tree);
    CoherentOf(NO_ROWS.leaves, m1.tree);
    CoherentFills(m.tree);
    var a := NextOf(RowsUpTo(gs, n));
    if IsBatch(g) {
      InsertRemembers(m, m1, m.tree.batchRoots, Block(g.s.start), g.s.subtreeRoot, a);
    } else {
      InsertRemembers(m, m1, m.tree.batchRoots, 0, 0, a);
    }
  }

  lemma InsertGrounds(gs: seq<Group>, n: nat)
    requires AllWellFormed(gs) && n < |gs|
    requires ChainOk(gs)
    ensures Grounded(Inserted(Clean(gs, n), gs[n]).tree, gs[n])
    ensures NextOf(RowsUpTo(gs, n)) <= NextOf(RowsUpTo(gs, n + 1))
    ensures HasLeaves(gs[n]) ==> First(gs[n]) + Width(gs[n]) <= NextOf(RowsUpTo(gs, n + 1))
    ensures Inserted(Clean(gs, n), gs[n]) == Clean(gs, n).(tree := Inserted(Clean(gs, n), gs[n]).tree)
  {
    hide Synced, GroupEffect, GroupRows, GroupOk, Truthful, WellFormed, NextOf, Grounded, LogsOf, M.Coherent, RowsUpTo,
      Clean;
    ParamsOk(gs);
    CleanIsSynced(gs, n);
    InsertedLands(NO_ROWS, Clean(gs, n), gs, n);
    InsertedShape(gs, n);
    GroundedIn(NO_ROWS.leaves, Inserted(Clean(gs, n), gs[n]).tree, gs, n);
    TruthfulBetween(gs, n, n + 1);
    if HasLeaves(gs[n]) {
      Bounds(gs, n);
    }
  }

  lemma {:induction false} CleanRemembers(gs: seq<Group>, n: nat)
    requires AllWellFormed(gs) && n <= |gs|
    requires ChainOk(gs)
    ensures FillsRemembered(Clean(gs, n)) && NotesBelow(Clean(gs, n).ledger, NextOf(RowsUpTo(gs, n)))
  {
    hide GroupEffect, ChainOk, WellFormed, FillsRemembered, NotesBelow, NextOf, Grounded, M.Coherent, RowsUpTo,
      Inserted;
    if n == 0 {
      NothingRemembered();
      NoRowsYet(gs);
    } else {
      CleanRemembers(gs, n - 1);
      InsertStep(gs, n - 1);
      InsertGrounds(gs, n - 1);
      BelowMore(Clean(gs, n - 1).ledger, NextOf(RowsUpTo(gs, n - 1)), NextOf(RowsUpTo(gs, n)));
      GroupRemembers(Inserted(Clean(gs, n - 1), gs[n - 1]), gs[n - 1], NextOf(RowsUpTo(gs, n)));
    }
  }

  lemma NoRowsYet(gs: seq<Group>)
    requires AllWellFormed(gs)
    ensures NextOf(RowsUpTo(gs, 0)) == 0
  {
  }

  lemma InsertedShape(gs: seq<Group>, n: nat)
    requires AllWellFormed(gs) && n < |gs|
    requires ChainOk(gs)
    ensures var m, m1 := Clean(gs, n), Inserted(Clean(gs, n), gs[n]);
            && m1 == m.(tree := m1.tree) && m1.tree.leaves == m.tree.leaves
            && m1.tree.filled == m.tree.filled && m1.tree.publicFilled == m.tree.publicFilled
            && T.Synced(NO_ROWS.leaves, m.tree) && T.Synced(NO_ROWS.leaves, m1.tree)
  {
    hide GroupEffect, GroupOk, Truthful, WellFormed, LogsOf, Clean, T.Synced;
    CleanIsSynced(gs, n);
    ParamsOk(gs);
    InsertedLands(NO_ROWS, Clean(gs, n), gs, n);
    SyncedTree(NO_ROWS, Clean(gs, n));
    SyncedTree(NO_ROWS, Inserted(Clean(gs, n), gs[n]));
  }
}
