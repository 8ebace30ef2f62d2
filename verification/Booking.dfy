/** postgres.ts PostgresLedger.apply: what one op leaves in the ledger, note by note and item by item. */
module Booking {
  import opened Field
  import opened History
  import opened Ledger
  import opened Listing
  import C = Conservation

  /** No later note is recorded under the commitment of note `k`. */
  ghost predicate Latest(notes: seq<LedgerNote>, k: nat)
    requires k < |notes|
  {
    forall j :: k < j < |notes| ==> notes[j].commitment != notes[k].commitment
  }

  /** byCommitment names the note recorded last under each commitment. */
  ghost predicate NamesLatest(s: State) {
    && (forall c :: c in s.byCommitment ==>
          var k := s.byCommitment[c]; k < |s.notes| && s.notes[k].commitment == c && Latest(s.notes, k))
    && forall k :: 0 <= k < |s.notes| ==> s.notes[k].commitment in s.byCommitment
  }

  // ---- the three kinds of record -----------------------------------------------------

  /** The op's notes, after those already there, each at its leaf, of this transaction, unspent. */
  ghost predicate NotesAdded(s: State, s': State, outputs: seq<DerivedNote>, txHash: nat) {
    && |s'.notes| == |s.notes| + |outputs| && s.notes <= s'.notes
    && forall k {:trigger outputs[k]} :: 0 <= k < |outputs| ==>
         s'.notes[|s.notes| + k]
         == LedgerNote(outputs[k].note, outputs[k].leafIndex, outputs[k].commitment, txHash, false)
  }

  lemma NamesOneMore(s: State, o: DerivedNote, txHash: nat)
    requires NamesLatest(s)
    ensures NamesLatest(RecordNote(s, o, txHash))
  {
  }

  lemma {:induction false} NotesAreAdded(s: State, outputs: seq<DerivedNote>, txHash: nat)
    requires NamesLatest(s)
    ensures var s' := RecordNotes(s, outputs, txHash);
            && NamesLatest(s') && NotesAdded(s, s', outputs, txHash)
            && s'.feed == s.feed && s'.historySeq == s.historySeq && s'.alarms == s.alarms && s'.applied == s.applied
  {
    hide NamesLatest;
    if outputs != [] {
      var n := |outputs| - 1;
      NotesAreAdded(s, outputs[..n], txHash);
      NamesOneMore(RecordNotes(s, outputs[..n], txHash), outputs[n], txHash);
    }
  }

  /** A note is spent now if it was, or if one of the commitments is its own and no later note has it. */
  ghost predicate MarksSet(s: State, s': State, cs: seq<Felt>) {
    && |s'.notes| == |s.notes|
    && forall k {:trigger s'.notes[k]} :: 0 <= k < |s.notes| ==>
         s'.notes[k] == s.notes[k].(spent := s.notes[k].spent
                                             || (s.notes[k].commitment in cs && Latest(s.notes, k)))
  }

  lemma {:induction false} MarksAreSet(s: State, cs: seq<Felt>)
    requires NamesLatest(s)
    ensures var s' := MarkAllSpent(s, cs);
            && NamesLatest(s') && MarksSet(s, s', cs) && s'.byCommitment == s.byCommitment
            && s'.feed == s.feed && s'.historySeq == s.historySeq && s'.alarms == s.alarms && s'.applied == s.applied
  {
    hide NamesLatest, MarksSet;
    if cs == [] {
      NothingMarked(s);
    } else {
      var n := |cs| - 1;
      MarksAreSet(s, cs[..n]);
      OneMoreMark(s, MarkAllSpent(s, cs[..n]), cs[..n], cs[n]);
      assert cs == cs[..n] + [cs[n]];
    }
  }

  lemma NothingMarked(s: State)
    ensures MarksSet(s, s, [])
  {
  }

  lemma LatestIsNamed(s: State, c: Felt, k: nat)
    requires NamesLatest(s) && k < |s.notes|
    ensures s.notes[k].commitment == c && Latest(s.notes, k) <==> c in s.byCommitment && s.byCommitment[c] == k
  {
    if s.notes[k].commitment == c && Latest(s.notes, k) {
      var j := s.byCommitment[c];
      assert s.notes[j].commitment == c && Latest(s.notes, j);
    }
  }

  lemma SameLatest(a: seq<LedgerNote>, b: seq<LedgerNote>)
    requires |a| == |b| && forall k :: 0 <= k < |a| ==> a[k].commitment == b[k].commitment
    ensures forall k :: 0 <= k < |a| ==> (Latest(a, k) <==> Latest(b, k))
  {
  }

  lemma StillNamed(s: State, s': State)
    requires NamesLatest(s) && s'.byCommitment == s.byCommitment && |s'.notes| == |s.notes|
    requires forall k :: 0 <= k < |s.notes| ==> s'.notes[k].commitment == s.notes[k].commitment
    ensures NamesLatest(s')
  {
    SameLatest(s.notes, s'.notes);
  }

  lemma OneMoreMark(s: State, mid: State, cs: seq<Felt>, c: Felt)
    requires NamesLatest(s) && NamesLatest(mid) && MarksSet(s, mid, cs) && mid.byCommitment == s.byCommitment
    ensures NamesLatest(MarkSpent(mid, c)) && MarksSet(s, MarkSpent(mid, c), cs + [c])
  {
    hide NamesLatest, Latest;
    var s' := MarkSpent(mid, c);
    forall k | 0 <= k < |s.notes|
      ensures s'.notes[k] == s.notes[k].(spent := s.notes[k].spent
                                                  || (s.notes[k].commitment in cs + [c] && Latest(s.notes, k)))
    {
      LatestIsNamed(s, c, k);
      assert mid.notes[k].commitment == s.notes[k].commitment;
    }
    StillNamed(mid, s');
  }

  /** One item per draft, in order: the op's transaction and timestamp, the next seqs. */
  ghost predicate ItemsAdded(s: State, s': State, drafts: seq<Draft>, op: OpEnvelope) {
    && |s'.feed| == |s.feed| + |drafts| && s.feed <= s'.feed && s'.historySeq == s.historySeq + |drafts|
    && forall k {:trigger drafts[k]} :: 0 <= k < |drafts| ==>
         s'.feed[|s.feed| + k]
         == Entry(drafts[k].owner, Item(drafts[k].kind, drafts[k].counterparty, drafts[k].amount, op.key.txHash,
                                        op.blockTimestamp, s.historySeq + k))
  }

  lemma {:induction false} ItemsAreAdded(s: State, drafts: seq<Draft>, op: OpEnvelope)
    ensures var s' := RecordDrafts(s, drafts, op);
            && ItemsAdded(s, s', drafts, op)
            && s'.notes == s.notes && s'.byCommitment == s.byCommitment && s'.alarms == s.alarms
            && s'.applied == s.applied
  {
    if drafts != [] {
      ItemsAreAdded(s, drafts[..|drafts| - 1], op);
    }
  }

  // ---- one op ------------------------------------------------------------------------

  /** The derived op is in the ledger: its notes after the others, marked together with them, its alarms,
      its items, and its key. */
  ghost predicate Booked(s: State, s': State, d: Derived, op: OpEnvelope) {
    && s'.applied == s.applied + {op.key} && s'.alarms == s.alarms + d.alarms
    && ItemsAdded(s, s', d.history, op)
    && exists noted: State :: NotesAdded(s, noted, d.outputs, op.key.txHash) && MarksSet(noted, s', d.spent)
  }

  lemma RecordBooks(s: State, d: Derived, op: OpEnvelope)
    requires NamesLatest(s)
    ensures NamesLatest(Record(TakeKey(s, op.key), d, op)) && Booked(s, Record(TakeKey(s, op.key), d, op), d, op)
  {
    hide NamesLatest, NotesAdded, MarksSet, ItemsAdded;
    var keyed := TakeKey(s, op.key);
    SameNotes(s, keyed);
    NotesAreAdded(keyed, d.outputs, op.key.txHash);
    var noted := RecordNotes(keyed, d.outputs, op.key.txHash);
    var alarmed := RecordAlarms(noted, d.alarms);
    SameNotes(noted, alarmed);
    MarksAreSet(alarmed, d.spent);
    var marked := MarkAllSpent(alarmed, d.spent);
    ItemsAreAdded(marked, d.history, op);
    SameNotes(marked, RecordDrafts(marked, d.history, op));
    Steps(s, keyed, noted, alarmed, marked, RecordDrafts(marked, d.history, op), d, op);
  }

  lemma SameNotes(s: State, s': State)
    requires s'.notes == s.notes && s'.byCommitment == s.byCommitment
    ensures NamesLatest(s) ==> NamesLatest(s')
  {
  }

  lemma Steps(s: State, keyed: State, noted: State, alarmed: State, marked: State, s': State, d: Derived,
              op: OpEnvelope)
    requires keyed.notes == s.notes && keyed.feed == s.feed && keyed.historySeq == s.historySeq
    requires NotesAdded(keyed, noted, d.outputs, op.key.txHash) && alarmed.notes == noted.notes
    requires MarksSet(alarmed, marked, d.spent) && s'.notes == marked.notes
    requires ItemsAdded(marked, s', d.history, op) && marked.feed == s.feed && marked.historySeq == s.historySeq
    ensures ItemsAdded(s, s', d.history, op)
    ensures NotesAdded(s, noted, d.outputs, op.key.txHash) && MarksSet(noted, s', d.spent)
  {
  }

  /** apply books an op once: a replay changes nothing, a missing key leaves only the op's key, and
      everything else is booked whole, in the op's own transaction, and fills the batch it opened. */
  lemma OpIsBookedOnce(s: State, op: OpEnvelope)
    requires WellShaped(op) && NamesLatest(s)
    ensures var (s', fill, ok) := Apply(s, op);
            && NamesLatest(s')
            && (op.key in s.applied ==> s' == s && fill.None? && ok)
            && (op.key !in s.applied && op.envelope.NoKemKey? ==>
                  && !ok && fill.None?
                  && s' == s.(applied := s.applied + {op.key}, pendingApplied := s.pendingApplied + [op.key]))
            && (op.key !in s.applied && !op.envelope.NoKemKey? ==>
                  ok && exists d :: Derives(op, Some(d)) && Booked(s, s', d, op) && fill == d.batchFill)
  {
    hide Record, DeriveOp, Derives, Booked, NamesLatest;
    SameNotes(s, TakeKey(s, op.key));
    OpDerives(op);
    ThrowsIff(op);
    if DeriveOp(op).Some? {
      RecordBooks(s, DeriveOp(op).value, op);
    }
  }

  lemma ThrowsIff(op: OpEnvelope)
    requires WellShaped(op)
    ensures DeriveOp(op).None? <==> op.envelope.NoKemKey?
  {
  }

  /** So it is over every run of ops, from the empty ledger on. */
  lemma {:induction false} RunsNameLatest(ops: seq<OpEnvelope>)
    requires forall i :: 0 <= i < |ops| ==> WellShaped(ops[i])
    ensures NamesLatest(C.Run(ops))
  {
    hide Apply, WellShaped;
    if ops != [] {
      RunsNameLatest(ops[..|ops| - 1]);
      OpIsBookedOnce(C.Run(ops[..|ops| - 1]), ops[|ops| - 1]);
    }
  }
}
