/** What one op group can change, and why a second application changes nothing. */
module Effects {
  import opened Field
  import opened Merkle
  import opened Chain
  import opened Ingest
  import opened Correlation
  import opened Recording
  import opened Listing
  import opened Booking
  import D = Disclosure
  import F = Feed
  import K = Kem
  import L = Ledger
  import M = Mirror
  import R = Registry

  function GroupKey(g: Group): Key
    requires WellFormed(g)
  {
    KeyOf(MainLog(g))
  }

  // ---- the shape of an effect --------------------------------------------------------

  /** A batch interior recovered, or nothing. */
  ghost predicate FilledOrNot(t: M.State, t': M.State, s: Subtree, source: M.Source) {
    || t' == t
    || exists run ::
         |run| == B && FoldRun(LOG_B, run) == s.subtreeRoot && t' == M.FillBatch(t, s.start, run, source)
  }

  lemma BookShape(m: Mem, op: L.OpEnvelope)
    requires L.WellShaped(op)
    ensures var m' := Book(m, op).0;
            && m' == m.(ledger := m'.ledger, tree := m'.tree)
            && (!op.kind.OpDisburse? ==> m'.tree == m.tree)
            && FilledOrNot(m.tree, m'.tree, Subtree(op.batchStart, op.batchRoot, 0), M.Arbiter)
  {
  }

  lemma NullifiersOnly(s: F.State, nfs: seq<Felt>)
    ensures var s' := F.AddNullifiers(s, nfs);
            s' == s.(nullifiers := s'.nullifiers, pendingNullifiers := s'.pendingNullifiers)
  {
    F.NullifiersKeep(s, nfs);
  }

  lemma SpendShape(m: Mem, g: Group)
    requires K.Valid(m.kem) && WellFormed(g) && g.SpendGroup?
    ensures var m' := GroupEffect(m, g).0;
            && m'.tree == RecordPairs(m.tree, PairsOf(g)) && m'.modules == m.modules && m'.kem == m.kem
            && m'.feed.seen == m.feed.seen + {GroupKey(g)}
            && |m'.feed.feed| >= |m.feed.feed|
  {
    hide L.DeriveOp, L.Apply, RecordPairs, SpentDraft, PairsOf, Book;
    var l := MainLog(g);
    var recorded := m.(tree := RecordPairs(m.tree, PairsOf(g)));
    var (feed, at) := F.AddEvent(recorded.feed, SpentDraft(l, PairsOf(g)));
    SpentKey(l, PairsOf(g));
    NullifiersOnly(feed, g.nfs);
    if !Consumer(g.kind) {
      SpentShaped(g);
      BookShape(recorded.(feed := F.AddNullifiers(feed, g.nfs)), SpentOp(l, PairsOf(g)));
    }
  }

  lemma SpentShaped(g: Group)
    requires WellFormed(g) && g.SpendGroup? && !Consumer(g.kind)
    ensures var op := SpentOp(MainLog(g), PairsOf(g)); L.WellShaped(op) && !op.kind.OpDisburse? && op.key == GroupKey(g)
  {
  }

  lemma BatchShape(m: Mem, g: Group)
    requires K.Valid(m.kem) && WellFormed(g) && g.BatchGroup?
    ensures var m' := GroupEffect(m, g).0;
            && FilledOrNot(m.tree, m'.tree, g.s.(root := 0), M.Arbiter) && m'.modules == m.modules && m'.kem == m.kem
            && m'.feed.seen == m.feed.seen + {GroupKey(g)}
  {
    hide L.DeriveOp, L.Apply, Book, FilledOrNot, D.VerifyDisclosure, Consecutive;
    var l := MainLog(g);
    var cts := if g.published.Some? then g.published.value.elements else [];
    var disclosure := D.VerifyDisclosure(cts, l.ev.disclosureHash, l.txHash, g.s.start);
    var slices := if cts == [] then [] else Consecutive(g.s.start, B);
    var (feed, at) :=
      F.AddEvent(m.feed,
                 F.Draft(KeyOf(l), l.blockNumber, F.DisburseEvent, slices, Some(disclosure), None, None, l.ev.payload));
    NullifiersOnly(feed, [g.nullifier]);
    var fed := m.(feed := F.AddNullifiers(feed, [g.nullifier]));
    NotFilled(m.tree, g.s.(root := 0), M.Arbiter);
    if g.published.Some? {
      BookShape(fed, BatchOp(l, g.s, g.published.value.envelope));
    }
  }

  lemma NotFilled(t: M.State, s: Subtree, source: M.Source)
    ensures FilledOrNot(t, t, s, source)
  {
  }

  lemma PrivShape(m: Mem, g: Group)
    requires K.Valid(m.kem) && WellFormed(g) && g.PrivGroup?
    ensures var m' := GroupEffect(m, g).0;
            && FilledOrNot(m.tree, m'.tree, g.s.(root := 0), M.Public) && m'.modules == m.modules
            && m'.ledger == m.ledger
            && (m'.kem == m.kem || m'.kem == K.RecordBatch(m.kem, KemRecord(MainLog(g), g.s)))
            && m'.feed.seen == m.feed.seen + {GroupKey(g)}
  {
    hide FilledOrNot, D.VerifyConsumerDisclosure, PrivDraft, K.RecordBatch;
    var l := MainLog(g);
    var elements := Elements(g.published);
    PrivKey(l, g.s, elements);
    var (feed, at) := F.AddEvent(m.feed, PrivDraft(l, g.s, elements));
    NullifiersOnly(feed, [g.nullifier]);
    NotFilled(m.tree, g.s.(root := 0), M.Public);
    PublicFill(m.tree, elements, l.ev.disclosureHash, l.txHash, g.s);
  }

  lemma PublicFill(t: M.State, elements: seq<Felt>, dh: Felt, tx: nat, s: Subtree)
    ensures var v := D.VerifyConsumerDisclosure(elements, dh, s.subtreeRoot, tx, s.start);
            v.leaves.Some? ==>
              FilledOrNot(t, M.FillBatch(t, s.start, v.leaves.value, M.Public), s.(root := 0), M.Public)
  {
    hide D.VerifyConsumerDisclosure;
    D.ConsumerVerdictExact(elements, dh, s.subtreeRoot, tx, s.start);
  }

  lemma StreamShape(m: Mem, g: Group)
    requires K.Valid(m.kem) && WellFormed(g) && (g.RegistryGroup? || g.AcceptGroup?)
    ensures var m' := GroupEffect(m, g).0;
            && m'.tree == m.tree && m'.feed == m.feed && m'.ledger == m.ledger
            && (g.RegistryGroup? ==>
                m'.kem == m.kem && m'.modules == R.Apply(m.modules, GroupKey(g), g.moduleAddr, g.registered).0)
            && (g.AcceptGroup? ==>
                  && m'.modules == m.modules
                  && m'.kem == K.AcceptChunk(m.kem, K.Accept(g.batchId, g.chunkIndex, g.data, GroupKey(g))).0)
    ensures GroupEffect(m, g).1
         == if g.RegistryGroup? then R.Apply(m.modules, GroupKey(g), g.moduleAddr, g.registered).1
            else K.AcceptChunk(m.kem, K.Accept(g.batchId, g.chunkIndex, g.data, GroupKey(g))).1
  {
  }

  // ---- first sight -------------------------------------------------------------------

  /** The group has been applied: its dedup key is taken and its leaves are recorded. */
  ghost predicate Done(m: Mem, g: Group)
    requires WellFormed(g)
  {
    match g
    case SpendGroup(_, _, _, start, ocs, _, _, _, _, _) => GroupKey(g) in m.feed.seen && LeavesIn(m.tree, start, ocs)
    case BatchGroup(_, _, _, _, _, _) => GroupKey(g) in m.feed.seen
    case PrivGroup(_, _, _, _, _, _, _, _) => GroupKey(g) in m.feed.seen
    case RegistryGroup(_, _, _) => GroupKey(g) in m.modules.seen
    case AcceptGroup(_, _, _, _, _) => GroupKey(g) in m.kem.seen
  }

  ghost predicate LeavesIn(t: M.State, start: nat, ocs: seq<Felt>) {
    forall i: nat :: start <= i < start + |ocs| ==> i in t.leaves && t.leaves[i] == ocs[i - start]
  }

  lemma {:induction false} PairsAlreadyIn(t: M.State, pairs: seq<Pair>)
    requires forall i :: 0 <= i < |pairs| ==>
               pairs[i].leafIndex in t.leaves && t.leaves[pairs[i].leafIndex] == pairs[i].leaf
    ensures RecordPairs(t, pairs) == t
    decreases |pairs|
  {
    if pairs != [] {
      assert t.leaves[pairs[0].leafIndex := pairs[0].leaf] == t.leaves;
      PairsAlreadyIn(t, pairs[1..]);
    }
  }

  /** The leaves after a recording: the run written over what was there. */
  lemma {:induction false} RecordedLeaves(t: M.State, pairs: seq<Pair>)
    requires forall i :: 0 <= i < |pairs| ==> pairs[i].leafIndex == pairs[0].leafIndex + i
    ensures var t' := RecordPairs(t, pairs);
            && t' == t.(leaves := t'.leaves, pending := t'.pending)
            && (forall i :: i in t.leaves ==> i in t'.leaves)
            && (forall i ::
                  i in t'.leaves && (pairs == [] || !(pairs[0].leafIndex <= i < pairs[0].leafIndex + |pairs|)) ==>
                    i in t.leaves && t'.leaves[i] == t.leaves[i])
            && forall i {:trigger pairs[i]} :: 0 <= i < |pairs| ==>
                 pairs[i].leafIndex in t'.leaves && t'.leaves[pairs[i].leafIndex] == pairs[i].leaf
    decreases |pairs|
  {
    if pairs != [] {
      RecordedLeaves(M.RecordLeaf(t, pairs[0].leafIndex, pairs[0].leaf), pairs[1..]);
    }
  }

  /** A group already applied is a replay: no buffer, no record and no alarm moves. */
  lemma DoneIsIdle(m: Mem, g: Group)
    requires K.Valid(m.kem) && WellFormed(g) && Done(m, g)
    ensures GroupEffect(m, g) == (m, true)
  {
    hide Book, D.VerifyDisclosure, D.VerifyConsumerDisclosure;
    if g.SpendGroup? {
      PairsAlreadyIn(m.tree, PairsOf(g));
      SpentKey(MainLog(g), PairsOf(g));
    } else if g.PrivGroup? {
      PrivKey(MainLog(g), g.s, Elements(g.published));
    }
  }

  lemma EffectIsDone(m: Mem, g: Group)
    requires K.Valid(m.kem) && WellFormed(g) && GroupEffect(m, g).1
    ensures Done(GroupEffect(m, g).0, g)
  {
    hide GroupEffect, K.AcceptChunk, R.Apply;
    match g {
      case SpendGroup(_, _, _, _, _, _, _, _, _, _) =>
        SpendShape(m, g);
        RecordedLeaves(m.tree, PairsOf(g));
        OwnLeavesIn(m.tree, g);
      case BatchGroup(_, _, _, _, _, _) => BatchShape(m, g);
      case PrivGroup(_, _, _, _, _, _, _, _) => PrivShape(m, g);
      case RegistryGroup(_, a, registered) =>
        StreamShape(m, g);
        RegistrySees(m.modules, GroupKey(g), a, registered);
      case AcceptGroup(_, _, batchId, chunkIndex, data) =>
        StreamShape(m, g);
        KemSees(m.kem, K.Accept(batchId, chunkIndex, data, GroupKey(g)));
    }
  }

  lemma OwnLeavesIn(t: M.State, g: Group)
    requires WellFormed(g) && g.SpendGroup?
    ensures LeavesIn(RecordPairs(t, PairsOf(g)), g.start, g.ocs)
  {
    hide RecordPairs, EnvelopeFits;
    var pairs := PairsOf(g);
    RecordedLeaves(t, pairs);
    forall i: nat | g.start <= i < g.start + |g.ocs|
      ensures var t' := RecordPairs(t, pairs); i in t'.leaves && t'.leaves[i] == g.ocs[i - g.start]
    {
      assert pairs[i - g.start].leafIndex == i;
    }
  }

  lemma RegistrySees(s: R.State, key: Key, a: Address, registered: bool)
    ensures R.Apply(s, key, a, registered).0.seen == s.seen + {key}
    ensures s.byAddress.Keys <= R.Apply(s, key, a, registered).0.byAddress.Keys
  {
  }

  lemma KemSees(s: K.State, a: K.Accept)
    requires K.Valid(s)
    ensures K.AcceptChunk(s, a).0.seen == s.seen + {a.key}
  {
  }

  /** The leaves two groups stand on do not overlap. */
  ghost predicate Apart(g: Group, g': Group) {
    g.SpendGroup? ==>
      && (g'.SpendGroup? ==> g.start + |g.ocs| <= g'.start || g'.start + |g'.ocs| <= g.start)
      && (IsBatch(g') ==> g.start + |g.ocs| <= g'.s.start || g'.s.start + B <= g.start)
  }

  lemma FillKeepsLeaves(t: M.State, t': M.State, s: Subtree, source: M.Source, start: nat, ocs: seq<Felt>)
    requires FilledOrNot(t, t', s, source) && LeavesIn(t, start, ocs)
    requires start + |ocs| <= s.start || s.start + B <= start
    ensures LeavesIn(t', start, ocs)
  {
  }

  /** Applied once, applied for good, whatever else happens. */
  lemma DoneStays(m: Mem, g: Group, g': Group)
    requires K.Valid(m.kem) && WellFormed(g) && WellFormed(g') && Done(m, g) && Apart(g, g')
    ensures Done(GroupEffect(m, g').0, g)
  {
    hide GroupEffect, K.AcceptChunk, R.Apply, K.RecordBatch, LeavesIn, FilledOrNot, PairsOf;
    match g' {
      case SpendGroup(_, _, _, _, _, _, _, _, _, _) =>
        SpendShape(m, g');
        if g.SpendGroup? {
          RecordKeepsLeaves(m.tree, g', g.start, g.ocs);
        }
      case BatchGroup(_, _, _, _, _, _) =>
        BatchShape(m, g');
        if g.SpendGroup? {
          FillKeepsLeaves(m.tree, GroupEffect(m, g').0.tree, g'.s.(root := 0), M.Arbiter, g.start, g.ocs);
        }
      case PrivGroup(_, _, _, _, _, _, _, _) =>
        PrivShape(m, g');
        KemRecordSees(m.kem, KemRecord(MainLog(g'), g'.s));
        if g.SpendGroup? {
          FillKeepsLeaves(m.tree, GroupEffect(m, g').0.tree, g'.s.(root := 0), M.Public, g.start, g.ocs);
        }
      case RegistryGroup(_, a, registered) =>
        StreamShape(m, g');
        RegistrySees(m.modules, GroupKey(g'), a, registered);
      case AcceptGroup(_, _, batchId, chunkIndex, data) =>
        StreamShape(m, g');
        KemSees(m.kem, K.Accept(batchId, chunkIndex, data, GroupKey(g')));
    }
  }

  lemma KemRecordSees(s: K.State, r: K.Recorded)
    ensures s.seen <= K.RecordBatch(s, r).seen <= s.seen + {r.key}
  {
  }

  lemma RecordKeepsLeaves(t: M.State, g': Group, start: nat, ocs: seq<Felt>)
    requires WellFormed(g') && g'.SpendGroup? && LeavesIn(t, start, ocs)
    requires start + |ocs| <= g'.start || g'.start + |g'.ocs| <= start
    ensures LeavesIn(RecordPairs(t, PairsOf(g')), start, ocs)
  {
    var pairs := PairsOf(g');
    RecordedLeaves(t, pairs);
    assert pairs != [] && pairs[0].leafIndex == g'.start;
  }

  // ---- what one op leaves in the feed and the nullifier set ----------------------------

  /** On first sight a small op is one more event over its own leaves and its nonzero nullifiers are
      spent; a replay adds neither. */
  lemma SpendIsRecordedOnce(m: Mem, g: Group)
    requires K.Valid(m.kem) && WellFormed(g) && g.SpendGroup?
    ensures var m', seen := GroupEffect(m, g).0, GroupKey(g) in m.feed.seen;
            && |m'.feed.feed| == |m.feed.feed| + (if seen then 0 else 1) && m.feed.feed <= m'.feed.feed
            && (!seen ==> SpendEntry(m'.feed.feed[|m.feed.feed|].draft, MainLog(g), PairsOf(g)))
            && (forall nf ::
                  nf in m'.feed.nullifiers <==> nf in m.feed.nullifiers || (!seen && nf in g.nfs && nf != 0))
            && m'.feed.alarms == m.feed.alarms
            && LeavesIn(m'.tree, g.start, g.ocs)
            && (seen || !ARBITER || !PoolKind(g.kind) ==> m'.ledger == m.ledger)
            && (!seen && ARBITER && PoolKind(g.kind) ==>
                  exists op :: SpendEnvelope(op, MainLog(g), PairsOf(g)) && L.WellShaped(op)
                               && m'.ledger == L.Apply(m.ledger, op).0)
  {
    hide Spend, LeavesIn, PairsOf, L.WellShaped, L.Apply, SpendEnvelope;
    SpendShape(m, g);
    OwnLeavesIn(m.tree, g);
    SpendRecords(m, MainLog(g), PairsOf(g));
  }

  /** The event a transfer leaves in the feed names, in order, exactly the leaves its commitments landed
      at; deposits and withdrawals of the pool name none. */
  lemma EventNamesItsLeaves(m: Mem, g: Group, i: nat)
    requires K.Valid(m.kem) && WellFormed(g) && g.SpendGroup? && GroupKey(g) !in m.feed.seen && i < |g.ocs|
    ensures var m' := GroupEffect(m, g).0;
            && |m'.feed.feed| == |m.feed.feed| + 1
            && var d := m'.feed.feed[|m.feed.feed|].draft;
               && d.key == GroupKey(g) && d.kind == g.kind && d.payload == g.payload && d.disclosure.None?
               && if g.kind.DepositEvent? || g.kind.WithdrawEvent? then d.leafIndices == []
                  else
                    && |d.leafIndices| == |g.ocs| && d.leafIndices[i] == g.start + i
                    && LeafAt(m'.tree.leaves, d.leafIndices[i]) == g.ocs[i]
  {
    hide GroupEffect;
    SpendIsRecordedOnce(m, g);
    assert PairsOf(g)[i] == Pair(g.start + i, g.ocs[i], g.roots[i]);
  }

  /** With an authority key, a pool op whose envelope opens is booked whole on first sight: the notes, marks,
      alarms and items of its envelope, in its own transaction. */
  lemma SpendIsBooked(m: Mem, g: Group)
    requires K.Valid(m.kem) && WellFormed(g) && g.SpendGroup? && ARBITER && PoolKind(g.kind) && NamesLatest(m.ledger)
    requires GroupKey(g) !in m.feed.seen && GroupKey(g) !in m.ledger.applied && !g.envelope.NoKemKey?
    ensures exists op, d :: SpendEnvelope(op, MainLog(g), PairsOf(g)) && L.WellShaped(op)
                            && Derives(op, Some(d)) && Booked(m.ledger, GroupEffect(m, g).0.ledger, d, op)
  {
    hide GroupEffect, L.WellShaped, L.Apply, LeavesIn, SpendEntry, PairsOf, Derives, Booked, NamesLatest;
    SpendIsRecordedOnce(m, g);
    var op :| SpendEnvelope(op, MainLog(g), PairsOf(g)) && L.WellShaped(op)
              && GroupEffect(m, g).0.ledger == L.Apply(m.ledger, op).0;
    OpIsBookedOnce(m.ledger, op);
  }

  /** What a batch's transaction published for it. */
  function PublishedBy(g: Group): seq<Felt>
    requires WellFormed(g) && IsBatch(g)
  {
    if g.published.None? then [] else g.published.value.elements
  }

  /** The entry of a pool batch: its block's leaves if anything was published, its class by what was. */
  ghost predicate BatchEventOf(d: F.Draft, g: Group)
    requires WellFormed(g) && g.BatchGroup?
  {
    var elements := PublishedBy(g);
    && d.key == GroupKey(g) && d.kind == F.DisburseEvent && d.payload == g.payload
    && d.batchId.None? && d.outputCommitments.None?
    && (if elements == [] then d.leafIndices == [] else Spans(d.leafIndices, g.s.start, B))
    && d.disclosure.Some?
    && var r, chain := d.disclosure.value, D.DisclosureChain(elements);
       && r.txHash == g.h.txHash && r.startLeafIndex == g.s.start
       && (r.status.Withheld? <==> elements == [])
       && (r.status.Verified? <==> elements != [] && chain == g.disclosureHash)
       && (r.status.Unverifiable? <==> |elements| == 4 * B && chain != g.disclosureHash)
       && (r.status.Mismatch? <==> |elements| !in {0, 4 * B} && chain != g.disclosureHash)
  }

  lemma BatchClasses(d: F.Draft, g: Group)
    requires WellFormed(g) && g.BatchGroup? && BatchEntry(d, MainLog(g), g.s, PublishedBy(g))
    ensures BatchEventOf(d, g)
  {
    hide Spans, D.VerifyDisclosure;
    D.ClassesExact(PublishedBy(g), g.disclosureHash, g.h.txHash, g.s.start);
  }

  /** On first sight a pool batch is one more event, classified by what was published; its nullifier is
      spent and nothing else is; the ledger's half runs if an authority tail was published and there is a
      key to open it. A replay does none of that. */
  lemma BatchIsRecordedOnce(m: Mem, g: Group)
    requires K.Valid(m.kem) && WellFormed(g) && g.BatchGroup?
    ensures var (m', ok) := GroupEffect(m, g);
            var seen, tail := GroupKey(g) in m.feed.seen, |PublishedBy(g)| > 4 * B;
            && (seen ==> m' == m && ok)
            && |m'.feed.feed| == |m.feed.feed| + (if seen then 0 else 1) && m.feed.feed <= m'.feed.feed
            && (!seen ==> BatchEventOf(m'.feed.feed[|m.feed.feed|].draft, g))
            && (forall nf ::
                  nf in m'.feed.nullifiers <==> nf in m.feed.nullifiers || (!seen && nf == g.nullifier && nf != 0))
            && (!ARBITER || !tail ==> ok && m'.ledger == m.ledger && m'.tree == m.tree)
            && (!seen && ARBITER && tail ==>
                  exists op :: BatchEnvelope(op, MainLog(g), g.s, g.published.value.envelope) && L.WellShaped(op)
                               && BatchBooked(m, m', ok, op))
  {
    hide Disburse, L.WellShaped, BatchBooked, BatchEnvelope, BatchEntry, BatchEventOf;
    BatchRecords(m, MainLog(g), g.s, g.published);
    if GroupKey(g) !in m.feed.seen {
      BatchClasses(GroupEffect(m, g).0.feed.feed[|m.feed.feed|].draft, g);
    }
  }

  /** Whether a consumer batch's publish checks out in full. */
  ghost predicate ChecksOut(g: Group)
    requires WellFormed(g) && g.PrivGroup?
  {
    var elements := PublishedBy(g);
    && |elements| == 6 * B && (forall i :: 0 <= i < |elements| ==> 0 <= elements[i] < D.FIELD_PRIME)
    && D.DisclosureChain(elements) == g.disclosureHash
    && FoldRun(LOG_B, elements[5 * B..6 * B]) == g.s.subtreeRoot
  }

  /** The entry of a consumer batch: leaves and commitments for a publish of full length, its class by
      what was published. */
  ghost predicate PrivEventOf(d: F.Draft, g: Group)
    requires WellFormed(g) && g.PrivGroup?
  {
    var elements := PublishedBy(g);
    var full := |elements| == 6 * B;
    && d.key == GroupKey(g) && d.kind == F.DisbursePriv && d.payload == g.payload && d.batchId == Some(g.s.start)
    && (full ==> Spans(d.leafIndices, g.s.start, B) && d.outputCommitments == Some(elements[5 * B..6 * B]))
    && (!full ==> d.leafIndices == [] && d.outputCommitments.None?)
    && d.disclosure.Some?
    && var r := d.disclosure.value;
       && r.txHash == g.h.txHash && r.startLeafIndex == g.s.start
       && (r.status.Withheld? <==> elements == [])
       && (r.status.Unverifiable? <==> elements != [] && !full)
       && (r.status.Verified? <==> ChecksOut(g))
       && (r.status.Mismatch? <==> full && !ChecksOut(g))
  }

  lemma PrivClasses(d: F.Draft, g: Group)
    requires WellFormed(g) && g.PrivGroup? && PrivEntry(d, MainLog(g), g.s, PublishedBy(g))
    ensures PrivEventOf(d, g)
    ensures var elements := PublishedBy(g);
            var v := D.VerifyConsumerDisclosure(elements, g.disclosureHash, g.s.subtreeRoot, g.h.txHash, g.s.start);
            v.leaves == if ChecksOut(g) then Some(elements[5 * B..6 * B]) else None
  {
    hide Spans, D.VerifyConsumerDisclosure;
    D.ConsumerVerdictExact(PublishedBy(g), g.disclosureHash, g.s.subtreeRoot, g.h.txHash, g.s.start);
    D.ConsumerClassesExact(PublishedBy(g), g.disclosureHash, g.s.subtreeRoot, g.h.txHash, g.s.start);
  }

  /** On first sight a consumer batch is one more event, classified by what was published; its nullifier
      is spent and nothing else is; its emitter owes its chunks; and the block is filled, publicly, with
      the published run exactly if the publish checks out in full. A replay does none of that. */
  lemma PrivIsRecordedOnce(m: Mem, g: Group)
    requires K.Valid(m.kem) && WellFormed(g) && g.PrivGroup?
    ensures var m', seen := GroupEffect(m, g).0, GroupKey(g) in m.feed.seen;
            && (seen ==> m' == m)
            && |m'.feed.feed| == |m.feed.feed| + (if seen then 0 else 1) && m.feed.feed <= m'.feed.feed
            && (!seen ==> PrivEventOf(m'.feed.feed[|m.feed.feed|].draft, g))
            && (!seen ==> ChunksOwed(m.kem, m'.kem, MainLog(g), g.s))
            && (forall nf ::
                  nf in m'.feed.nullifiers <==> nf in m.feed.nullifiers || (!seen && nf == g.nullifier && nf != 0))
            && m'.tree == (if !seen && ChecksOut(g)
                           then M.FillBatch(m.tree, g.s.start, PublishedBy(g)[5 * B..6 * B], M.Public) else m.tree)
  {
    hide DisbursePriv, PrivEntry, PrivEventOf, ChecksOut, ChunksOwed, M.FillBatch, D.VerifyConsumerDisclosure;
    PrivRecords(m, MainLog(g), g.s, g.published);
    if GroupKey(g) !in m.feed.seen {
      PrivClasses(GroupEffect(m, g).0.feed.feed[|m.feed.feed|].draft, g);
    }
  }

  /** So is the authority tail of a pool batch; the block is filled with the envelope's commitments exactly
      if they fold to the batch root. */
  lemma BatchIsBooked(m: Mem, g: Group)
    requires K.Valid(m.kem) && WellFormed(g) && g.BatchGroup? && ARBITER && NamesLatest(m.ledger)
    requires GroupKey(g) !in m.feed.seen && GroupKey(g) !in m.ledger.applied
    requires |PublishedBy(g)| > 4 * B && g.published.value.envelope.Notes?
    ensures var m', outputs := GroupEffect(m, g).0, g.published.value.envelope.outputs;
            && (exists op, d :: BatchEnvelope(op, MainLog(g), g.s, g.published.value.envelope) && L.WellShaped(op)
                                && Derives(op, Some(d)) && Booked(m.ledger, m'.ledger, d, op))
            && |outputs| == B
            && m'.tree == if FoldRun(LOG_B, L.Commitments(outputs)) == g.s.subtreeRoot
                          then M.FillBatch(m.tree, g.s.start, L.Commitments(outputs), M.Arbiter) else m.tree
  {
    hide GroupEffect, L.Apply, Booked, NamesLatest, BatchEventOf, M.FillBatch, FoldRun;
    BatchIsRecordedOnce(m, g);
    var (m', ok) := GroupEffect(m, g);
    var op :| BatchEnvelope(op, MainLog(g), g.s, g.published.value.envelope) && L.WellShaped(op)
              && BatchBooked(m, m', ok, op);
    OpIsBookedOnce(m.ledger, op);
    var d :| Derives(op, Some(d)) && Booked(m.ledger, m'.ledger, d, op) && L.Apply(m.ledger, op).1 == d.batchFill;
    FilledIff(op, d);
  }

  lemma FilledIff(op: L.OpEnvelope, d: L.Derived)
    requires L.WellShaped(op) && op.kind.OpDisburse? && op.envelope.Notes? && Derives(op, Some(d))
    ensures var cs := L.Commitments(op.envelope.outputs);
            |cs| == B && d.batchFill == if FoldRun(LOG_B, cs) == op.batchRoot then Some(cs) else None
  {
    hide FoldRun;
    var cs := L.Commitments(op.envelope.outputs);
    if FoldRun(LOG_B, cs) == op.batchRoot {
      assert d.batchFill.value == cs;
    }
  }
}
