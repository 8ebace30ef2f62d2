/** Write-behind of the ledger: staged buffers complete the durable rows, after any run of ops and
    any history of lost, reported or unreported commits. */
module LedgerSync {
  import opened Field
  import opened Tables
  import opened Chain
  import opened LedgerTables
  import L = Ledger

  // ---- notes -------------------------------------------------------------------------

  /** Durable rows lag the notes by exactly what the two buffers hold. */
  ghost predicate NotesSynced(t: map<nat, L.LedgerNote>, s: L.State) {
    && (forall i :: i in t ==> exists k :: 0 <= k < |s.notes| && s.notes[k].leafIndex == i)
    && (forall k :: 0 <= k < |s.notes| ==>
          var n := s.notes[k];
          && (n.leafIndex !in t ==> k in s.pendingNotes)
          && (n.leafIndex in t ==> t[n.leafIndex] in {n, n.(spent := false)})
          && (n.leafIndex in t && n.spent && !t[n.leafIndex].spent ==> n.commitment in s.pendingSpent))
  }

  lemma LeafNames(notes: seq<L.LedgerNote>, j: nat, k: nat)
    requires LeafAscending(notes) && j < |notes| && k < |notes| && notes[j].leafIndex == notes[k].leafIndex
    ensures j == k
  {
  }

  lemma {:induction false} StagedNotes(t: map<nat, L.LedgerNote>, notes: seq<L.LedgerNote>, at: seq<nat>, k: nat)
    requires LeafAscending(notes) && k < |notes| && forall j :: 0 <= j < |at| ==> at[j] < |notes|
    ensures var r, i := StageNotes(t, notes, at), notes[k].leafIndex;
            && (i in r <==> i in t || k in at)
            && (i in r ==> r[i] == if i in t then t[i] else notes[k])
  {
    hide LeafAscending;
    if at != [] {
      var init, last := at[..|at| - 1], at[|at| - 1];
      StagedNotes(t, notes, init, k);
      assert at == init + [last];
      if notes[last].leafIndex == notes[k].leafIndex {
        LeafNames(notes, last, k);
      }
    }
  }

  lemma {:induction false} StagedKeys(t: map<nat, L.LedgerNote>, notes: seq<L.LedgerNote>, at: seq<nat>, i: nat)
    requires i in StageNotes(t, notes, at)
    ensures i in t || exists k :: 0 <= k < |notes| && notes[k].leafIndex == i
  {
    if at != [] && i !in t && i in StageNotes(t, notes, at[..|at| - 1]) {
      StagedKeys(t, notes, at[..|at| - 1], i);
    }
  }

  lemma {:induction false} StagedSpent(t: map<nat, L.LedgerNote>, cs: seq<Felt>, i: nat)
    ensures var r := StageSpent(t, cs);
            && (i in r <==> i in t)
            && (i in t ==> r[i] == t[i].(spent := t[i].spent || t[i].commitment in cs))
  {
    if cs != [] {
      StagedSpent(t, cs[..|cs| - 1], i);
      assert cs == cs[..|cs| - 1] + [cs[|cs| - 1]];
    }
  }

  lemma NoteLands(t: map<nat, L.LedgerNote>, s: L.State, k: nat)
    requires Valid(s) && BuffersOk(s) && NotesSynced(t, s) && k < |s.notes|
    ensures var r, i := StageSpent(StageNotes(t, s.notes, s.pendingNotes), s.pendingSpent), s.notes[k].leafIndex;
            i in r && r[i] == s.notes[k]
  {
    hide LeafAscending, StageNotes, StageSpent, DistinctAlarms, DistinctCommitments;
    StagedNotes(t, s.notes, s.pendingNotes, k);
    StagedSpent(StageNotes(t, s.notes, s.pendingNotes), s.pendingSpent, s.notes[k].leafIndex);
  }

  lemma RowIsANote(t: map<nat, L.LedgerNote>, s: L.State, i: nat)
    requires NotesSynced(t, s) && i in StageSpent(StageNotes(t, s.notes, s.pendingNotes), s.pendingSpent)
    ensures exists k :: 0 <= k < |s.notes| && s.notes[k].leafIndex == i
  {
    StagedSpent(StageNotes(t, s.notes, s.pendingNotes), s.pendingSpent, i);
    StagedKeys(t, s.notes, s.pendingNotes, i);
  }

  lemma NotesLand(t: map<nat, L.LedgerNote>, s: L.State)
    requires Valid(s) && BuffersOk(s) && NotesSynced(t, s)
    ensures StageSpent(StageNotes(t, s.notes, s.pendingNotes), s.pendingSpent) == NoteTable(s.notes)
  {
    hide LeafAscending, NoteTable, StageNotes, StageSpent, DistinctAlarms, DistinctCommitments, NotesSynced, BuffersOk;
    var end, want := StageSpent(StageNotes(t, s.notes, s.pendingNotes), s.pendingSpent), NoteTable(s.notes);
    NoteTableLists(s.notes);
    forall i
      ensures i in end <==> i in want
      ensures i in want ==> end[i] == want[i]
    {
      if i in end {
        RowIsANote(t, s, i);
      }
      if i in end || i in want {
        var k :| 0 <= k < |s.notes| && s.notes[k].leafIndex == i;
        NoteLands(t, s, k);
      }
    }
  }

  // ---- the other tables --------------------------------------------------------------

  ghost predicate HistorySynced(t: map<nat, L.Entry>, s: L.State) {
    && (forall q :: q in t ==> q < |s.feed| && t[q] == s.feed[q])
    && (forall q :: 0 <= q < |s.feed| ==> q in t || s.feed[q] in s.pendingHistory)
    && (forall e :: e in s.pendingHistory ==> e.item.seqNo < |s.feed| && s.feed[e.item.seqNo] == e)
  }

  lemma {:induction false} StagedHistory(t: map<nat, L.Entry>, rows: seq<L.Entry>, q: nat)
    requires forall i, j :: 0 <= i < j < |rows| && rows[i].item.seqNo == rows[j].item.seqNo ==> rows[i] == rows[j]
    ensures var r := StageHistory(t, rows);
            && (q in r <==> q in t || exists e :: e in rows && e.item.seqNo == q)
            && (q in r ==> if q in t then r[q] == t[q] else r[q] in rows && r[q].item.seqNo == q)
  {
    if rows != [] {
      StagedHistory(t, rows[..|rows| - 1], q);
      assert rows == rows[..|rows| - 1] + [rows[|rows| - 1]];
    }
  }

  lemma HistoryLands(t: map<nat, L.Entry>, s: L.State)
    requires HistorySynced(t, s) && forall k :: 0 <= k < |s.feed| ==> s.feed[k].item.seqNo == k
    ensures StageHistory(t, s.pendingHistory) == HistoryTable(s.feed)
  {
    hide StageHistory;
    var end, want := StageHistory(t, s.pendingHistory), HistoryTable(s.feed);
    forall q: nat
      ensures q in end <==> q in want
      ensures q in want ==> end[q] == want[q]
    {
      StagedHistory(t, s.pendingHistory, q);
      if q in want {
        assert q in t || s.feed[q].item.seqNo == q;
      }
    }
  }

  /** Some prefix is durable and some overlapping suffix is buffered. */
  ghost predicate AlarmsSynced(rows: seq<L.Alarm>, s: L.State) {
    exists m, n :: 0 <= m <= n <= |s.alarms| && rows == s.alarms[..n] && s.pendingAlarms == s.alarms[m..]
  }

  lemma {:induction false} StagedAlarms(all: seq<L.Alarm>, m: nat, n: nat, k: nat)
    requires DistinctAlarms(all) && m <= n <= |all| && m <= k <= |all|
    ensures StageAlarms(all[..n], all[m..k]) == all[..if k < n then n else k]
    decreases k
  {
    hide StageAlarms, DistinctAlarms, SameAlarm;
    if m < k {
      StagedAlarms(all, m, n, k - 1);
      assert all[m..k] == all[m..k - 1] + [all[k - 1]];
      AlarmOneMore(all[..n], all[m..k - 1], all[k - 1]);
      AlarmInPlace(all, n, k - 1);
    } else {
      assert all[m..k] == [];
      NoAlarms(all[..n]);
    }
  }

  lemma NoAlarms(t: seq<L.Alarm>)
    ensures StageAlarms(t, []) == t
  {
  }

  ghost predicate Listed(t: seq<L.Alarm>, a: L.Alarm) {
    exists i :: 0 <= i < |t| && SameAlarm(t[i], a)
  }

  lemma AlarmOneMore(t: seq<L.Alarm>, rows: seq<L.Alarm>, a: L.Alarm)
    ensures StageAlarms(t, rows + [a])
         == if Listed(StageAlarms(t, rows), a) then StageAlarms(t, rows) else StageAlarms(t, rows) + [a]
  {
    assert (rows + [a])[..|rows|] == rows;
  }

  /** Among the alarms so far number `k` is listed exactly if it is below the durable prefix. */
  lemma AlarmInPlace(all: seq<L.Alarm>, n: nat, k: nat)
    requires DistinctAlarms(all) && n <= |all| && k < |all|
    ensures var rest := all[..if k < n then n else k];
            && (Listed(rest, all[k]) <==> k < n)
            && (k >= n ==> rest + [all[k]] == all[..k + 1])
  {
    var rest := all[..if k < n then n else k];
    if k < n {
      assert SameAlarm(rest[k], all[k]);
    }
  }

  lemma AlarmsLand(rows: seq<L.Alarm>, s: L.State)
    requires DistinctAlarms(s.alarms) && AlarmsSynced(rows, s)
    ensures StageAlarms(rows, s.pendingAlarms) == s.alarms
  {
    hide StageAlarms, DistinctAlarms, SameAlarm;
    var m, n :| 0 <= m <= n <= |s.alarms| && rows == s.alarms[..n] && s.pendingAlarms == s.alarms[m..];
    OverlapLands(s.alarms, m, n);
  }

  lemma OverlapLands(all: seq<L.Alarm>, m: nat, n: nat)
    requires DistinctAlarms(all) && m <= n <= |all|
    ensures StageAlarms(all[..n], all[m..]) == all
  {
    hide StageAlarms, DistinctAlarms;
    StagedAlarms(all, m, n, |all|);
    assert all[m..|all|] == all[m..] && all[..|all|] == all;
  }

  /** The durable rows plus the buffers are the ledger. */
  ghost predicate Synced(db: Db, s: L.State) {
    && Valid(s) && BuffersOk(s)
    && NotesSynced(db.notes, s)
    && HistorySynced(db.history, s)
    && AlarmsSynced(db.alarms, s)
    && db.applied + (set k | k in s.pendingApplied) == s.applied
  }

  lemma FlushLands(db: Db, s: L.State)
    requires Synced(db, s)
    ensures Stage(db, s) == Dump(s)
  {
    hide Valid, BuffersOk, NotesSynced, HistorySynced, AlarmsSynced;
    NotesLand(db.notes, s);
    ValidParts(s);
    HistoryLands(db.history, s);
    AlarmsLand(db.alarms, s);
  }

  lemma ValidParts(s: L.State)
    requires Valid(s)
    ensures LeafAscending(s.notes) && DistinctAlarms(s.alarms)
    ensures forall k :: 0 <= k < |s.feed| ==> s.feed[k].item.seqNo == k
  {
  }

  /** A flush that landed but was reported as failed: staging the kept buffers again is idle. */
  lemma RestageIsIdle(db: Db, s: L.State)
    requires Synced(db, s)
    ensures Synced(Dump(s), s) && Stage(Dump(s), s) == Dump(s)
  {
    hide LeafAscending, DistinctAlarms, DistinctCommitments, NoteTable, Stage;
    DumpIsSynced(s, s.pendingNotes, s.pendingSpent);
    AllAlarms(db.alarms, s);
    FlushLands(Dump(s), s);
  }

  lemma DumpIsSynced(s: L.State, pendingNotes: seq<nat>, pendingSpent: seq<Felt>)
    requires LeafAscending(s.notes)
    ensures NotesSynced(NoteTable(s.notes), s.(pendingNotes := pendingNotes, pendingSpent := pendingSpent))
  {
    hide LeafAscending, NoteTable;
    NoteTableLists(s.notes);
  }

  lemma AllAlarms(rows: seq<L.Alarm>, s: L.State)
    requires AlarmsSynced(rows, s)
    ensures AlarmsSynced(s.alarms, s) && AlarmsSynced(s.alarms, Core(s))
  {
    var m, n :| 0 <= m <= n <= |s.alarms| && rows == s.alarms[..n] && s.pendingAlarms == s.alarms[m..];
    WholeIsPrefix(s.alarms);
  }

  lemma WholeIsPrefix(all: seq<L.Alarm>)
    ensures all == all[..|all|] && all[|all|..] == []
  {
  }

  /** After commitFlush the dropped buffers are not missed. */
  lemma ClearedIsSynced(db: Db, s: L.State)
    requires Synced(db, s)
    ensures Synced(Dump(s), Core(s))
  {
    hide LeafAscending, DistinctAlarms, DistinctCommitments, NoteTable;
    DumpIsSynced(s, [], []);
    NotesOnly(NoteTable(s.notes), s.(pendingNotes := [], pendingSpent := []), Core(s));
    AllAlarms(db.alarms, s);
  }

  lemma NotesOnly(t: map<nat, L.LedgerNote>, a: L.State, b: L.State)
    requires NotesSynced(t, a) && a.notes == b.notes && a.pendingNotes == b.pendingNotes
    requires a.pendingSpent == b.pendingSpent
    ensures NotesSynced(t, b)
  {
  }

  // ---- every step of an op keeps it --------------------------------------------------

  lemma KeyStaysSynced(db: Db, s: L.State, key: Key)
    requires Synced(db, s)
    ensures Synced(db, L.TakeKey(s, key))
  {
    hide LeafAscending, DistinctAlarms, DistinctCommitments;
    NotesOnly(db.notes, s, L.TakeKey(s, key));
  }

  lemma NewNoteBuffers(db: Db, s: L.State, s': L.State, n: L.LedgerNote)
    requires BuffersOk(s) && NotesSynced(db.notes, s)
    requires s' == s.(notes := s.notes + [n], byCommitment := s'.byCommitment,
                      pendingNotes := s.pendingNotes + [|s.notes|])
    requires LeafAscending(s'.notes) && DistinctCommitments(s'.notes)
    ensures BuffersOk(s') && NotesSynced(db.notes, s')
  {
    assert forall k :: 0 <= k < |s.notes| ==> s'.notes[k] == s.notes[k];
    assert s'.notes[|s.notes|] == n;
    assert n.commitment !in s.pendingSpent;
    forall k | 0 <= k < |s.notes|
      ensures s.notes[k].leafIndex != n.leafIndex
    {
      assert s'.notes[k].leafIndex < s'.notes[|s.notes|].leafIndex;
    }
  }

  lemma NoteStaysSynced(db: Db, s: L.State, o: L.DerivedNote, txHash: nat)
    requires Synced(db, s)
    requires LeafAscending(L.RecordNote(s, o, txHash).notes) && DistinctCommitments(L.RecordNote(s, o, txHash).notes)
    ensures Synced(db, L.RecordNote(s, o, txHash))
  {
    hide LeafAscending, DistinctAlarms, DistinctCommitments, NotesSynced, BuffersOk;
    var s' := L.RecordNote(s, o, txHash);
    assert s'.notes[..|s.notes|] == s.notes;
    NewNoteBuffers(db, s, s', s'.notes[|s.notes|]);
    AlarmsOnly(db.alarms, s, s');
  }

  lemma AlarmsOnly(rows: seq<L.Alarm>, a: L.State, b: L.State)
    requires AlarmsSynced(rows, a) && a.alarms == b.alarms && a.pendingAlarms == b.pendingAlarms
    ensures AlarmsSynced(rows, b)
  {
  }

  lemma AlarmsStaySynced(db: Db, s: L.State, more: seq<L.Alarm>)
    requires Synced(db, s) && DistinctAlarms(s.alarms + more)
    ensures Synced(db, L.RecordAlarms(s, more))
  {
    hide LeafAscending, DistinctAlarms, DistinctCommitments, NotesSynced, BuffersOk, AlarmsSynced;
    AlarmsGrow(db.alarms, s, more);
    AlarmsAside(db, s, more);
  }

  lemma AlarmsGrow(rows: seq<L.Alarm>, s: L.State, more: seq<L.Alarm>)
    requires AlarmsSynced(rows, s)
    ensures AlarmsSynced(rows, L.RecordAlarms(s, more))
  {
    var s' := L.RecordAlarms(s, more);
    var m, n :| 0 <= m <= n <= |s.alarms| && rows == s.alarms[..n] && s.pendingAlarms == s.alarms[m..];
    SlicesGrow(s.alarms, more, m, n);
    assert 0 <= m <= n <= |s'.alarms| && rows == s'.alarms[..n] && s'.pendingAlarms == s'.alarms[m..];
  }

  lemma SlicesGrow(all: seq<L.Alarm>, more: seq<L.Alarm>, m: nat, n: nat)
    requires m <= |all| && n <= |all|
    ensures (all + more)[..n] == all[..n] && (all + more)[m..] == all[m..] + more
  {
  }

  lemma AlarmsAside(db: Db, s: L.State, more: seq<L.Alarm>)
    requires BuffersOk(s) && NotesSynced(db.notes, s)
    ensures BuffersOk(L.RecordAlarms(s, more)) && NotesSynced(db.notes, L.RecordAlarms(s, more))
  {
  }

  lemma MarkedBuffers(t: map<nat, L.LedgerNote>, s: L.State, k: nat)
    requires BuffersOk(s) && NotesSynced(t, s) && DistinctCommitments(s.notes) && k < |s.notes|
    ensures var s' := s.(notes := s.notes[k := s.notes[k].(spent := true)],
                         pendingSpent := s.pendingSpent + [s.notes[k].commitment]);
            BuffersOk(s') && NotesSynced(t, s')
  {
    MarkedBuffersOk(s, k);
    MarkedNotes(t, s, k);
  }

  lemma MarkedNotes(t: map<nat, L.LedgerNote>, s: L.State, k: nat)
    requires NotesSynced(t, s) && DistinctCommitments(s.notes) && k < |s.notes|
    ensures NotesSynced(t,
                        s.(notes := s.notes[k := s.notes[k].(spent := true)],
                           pendingSpent := s.pendingSpent + [s.notes[k].commitment]))
  {
    var notes := s.notes[k := s.notes[k].(spent := true)];
    assert forall j :: 0 <= j < |s.notes| ==>
      notes[j].leafIndex == s.notes[j].leafIndex && notes[j].commitment == s.notes[j].commitment;
    forall i | i in t
      ensures exists j :: 0 <= j < |notes| && notes[j].leafIndex == i
    {
      var j :| 0 <= j < |s.notes| && s.notes[j].leafIndex == i;
      assert notes[j].leafIndex == i;
    }
  }

  lemma MarkedBuffersOk(s: L.State, k: nat)
    requires BuffersOk(s) && DistinctCommitments(s.notes) && k < |s.notes|
    ensures BuffersOk(s.(notes := s.notes[k := s.notes[k].(spent := true)],
                         pendingSpent := s.pendingSpent + [s.notes[k].commitment]))
  {
    var s' := s.(notes := s.notes[k := s.notes[k].(spent := true)],
                 pendingSpent := s.pendingSpent + [s.notes[k].commitment]);
    forall c | c in s'.pendingSpent
      ensures exists j :: 0 <= j < |s'.notes| && s'.notes[j].commitment == c
    {
      if c in s.pendingSpent {
        var j :| 0 <= j < |s.notes| && s.notes[j].commitment == c;
        assert s'.notes[j].commitment == c;
      } else {
        assert s'.notes[k].commitment == c;
      }
    }
  }

  lemma {:induction false} IndexIgnoresFlags(notes: seq<L.LedgerNote>, notes': seq<L.LedgerNote>)
    requires |notes| == |notes'| && forall j :: 0 <= j < |notes| ==> notes[j].commitment == notes'[j].commitment
    ensures IndexAll(notes) == IndexAll(notes')
  {
    if notes != [] {
      IndexIgnoresFlags(notes[..|notes| - 1], notes'[..|notes| - 1]);
    }
  }

  lemma MarkedShape(notes: seq<L.LedgerNote>, k: nat)
    requires LeafAscending(notes) && DistinctCommitments(notes) && k < |notes|
    ensures var notes' := notes[k := notes[k].(spent := true)];
            LeafAscending(notes') && DistinctCommitments(notes') && IndexAll(notes') == IndexAll(notes)
  {
    IndexIgnoresFlags(notes, notes[k := notes[k].(spent := true)]);
  }

  lemma SpentStaysSynced(db: Db, s: L.State, c: Felt)
    requires Synced(db, s)
    ensures Synced(db, L.MarkSpent(s, c))
  {
    hide LeafAscending, DistinctAlarms, DistinctCommitments, NotesSynced, BuffersOk, IndexAll;
    if c in s.byCommitment && s.byCommitment[c] < |s.notes| {
      MarkedBuffers(db.notes, s, s.byCommitment[c]);
      MarkedShape(s.notes, s.byCommitment[c]);
      AlarmsOnly(db.alarms, s, L.MarkSpent(s, c));
    }
  }

  lemma DraftStaysSynced(db: Db, s: L.State, d: L.Draft, op: L.OpEnvelope)
    requires Synced(db, s)
    ensures Synced(db, L.RecordDraft(s, d, op))
  {
    hide LeafAscending, DistinctAlarms, DistinctCommitments, NotesSynced, BuffersOk, IndexAll;
    var s' := L.RecordDraft(s, d, op);
    var e := s'.feed[|s.feed|];
    assert s'.pendingHistory[|s.pendingHistory|] == e;
    AlarmsOnly(db.alarms, s, s');
    DraftAside(db.notes, s, s');
  }

  lemma DraftAside(t: map<nat, L.LedgerNote>, a: L.State, b: L.State)
    requires BuffersOk(a) && NotesSynced(t, a) && a.notes == b.notes
    requires a.pendingNotes == b.pendingNotes && a.pendingSpent == b.pendingSpent
    ensures BuffersOk(b) && NotesSynced(t, b)
  {
  }

  /** The op's recovered notes are new: leaves past everything recorded, commitments never seen. */
  ghost predicate NotesFit(s: L.State, d: L.Derived, txHash: nat) {
    && LeafAscending(L.RecordNotes(s, d.outputs, txHash).notes)
    && DistinctCommitments(L.RecordNotes(s, d.outputs, txHash).notes)
  }

  /** A premise the chain does not give: the op's alarms are under natural keys never used.
      TwinRejectionsCollapse has two ops for which it fails. */
  ghost predicate AlarmsFit(s: L.State, d: L.Derived) {
    DistinctAlarms(s.alarms + d.alarms)
  }

  ghost predicate Fits(s: L.State, d: L.Derived, txHash: nat) {
    NotesFit(s, d, txHash) && AlarmsFit(s, d)
  }

  lemma DropNote(notes: seq<L.LedgerNote>)
    requires LeafAscending(notes) && DistinctCommitments(notes) && notes != []
    ensures LeafAscending(notes[..|notes| - 1]) && DistinctCommitments(notes[..|notes| - 1])
  {
  }

  lemma {:induction false} NotesStaySynced(db: Db, s: L.State, outputs: seq<L.DerivedNote>, txHash: nat)
    requires Synced(db, s)
    requires LeafAscending(L.RecordNotes(s, outputs, txHash).notes)
    requires DistinctCommitments(L.RecordNotes(s, outputs, txHash).notes)
    ensures Synced(db, L.RecordNotes(s, outputs, txHash))
    ensures L.RecordNotes(s, outputs, txHash).alarms == s.alarms
  {
    hide LeafAscending, DistinctCommitments, Synced;
    if outputs != [] {
      var init := L.RecordNotes(s, outputs[..|outputs| - 1], txHash);
      var all := L.RecordNotes(s, outputs, txHash).notes;
      DropNote(all);
      assert all[..|all| - 1] == init.notes;
      NotesStaySynced(db, s, outputs[..|outputs| - 1], txHash);
      NoteStaysSynced(db, init, outputs[|outputs| - 1], txHash);
    }
  }

  lemma {:induction false} MarksStaySynced(db: Db, s: L.State, cs: seq<Felt>)
    requires Synced(db, s)
    ensures Synced(db, L.MarkAllSpent(s, cs))
  {
    hide Synced;
    if cs != [] {
      MarksStaySynced(db, s, cs[..|cs| - 1]);
      SpentStaysSynced(db, L.MarkAllSpent(s, cs[..|cs| - 1]), cs[|cs| - 1]);
    }
  }

  lemma {:induction false} DraftsStaySynced(db: Db, s: L.State, drafts: seq<L.Draft>, op: L.OpEnvelope)
    requires Synced(db, s)
    ensures Synced(db, L.RecordDrafts(s, drafts, op))
  {
    hide Synced;
    if drafts != [] {
      DraftsStaySynced(db, s, drafts[..|drafts| - 1], op);
      DraftStaysSynced(db, L.RecordDrafts(s, drafts[..|drafts| - 1], op), drafts[|drafts| - 1], op);
    }
  }

  /** One op in the ledger, even one that throws, leaves rows plus buffers equal to the read model. */
  lemma ApplyStaysSynced(db: Db, s: L.State, op: L.OpEnvelope)
    requires Synced(db, s) && L.WellShaped(op)
    requires L.DeriveOp(op).Some? ==> Fits(L.TakeKey(s, op.key), L.DeriveOp(op).value, op.key.txHash)
    ensures Synced(db, L.Apply(s, op).0)
  {
    hide Synced, LeafAscending, DistinctCommitments, DistinctAlarms, L.DeriveOp, L.WellShaped;
    if op.key !in s.applied {
      var keyed := L.TakeKey(s, op.key);
      KeyStaysSynced(db, s, op.key);
      if L.DeriveOp(op).Some? {
        var d := L.DeriveOp(op).value;
        NotesStaySynced(db, keyed, d.outputs, op.key.txHash);
        var s1 := L.RecordNotes(keyed, d.outputs, op.key.txHash);
        AlarmsStaySynced(db, s1, d.alarms);
        var s2 := L.RecordAlarms(s1, d.alarms);
        MarksStaySynced(db, s2, d.spent);
        DraftsStaySynced(db, L.MarkAllSpent(s2, d.spent), d.history, op);
      }
    }
  }

  // ---- where the premises are needed -------------------------------------------------

  /** The other notes recorded under `c`, besides the one `k` that memory marks, are spent already. */
  ghost predicate TwinsSpent(notes: seq<L.LedgerNote>, c: Felt, k: nat) {
    forall j :: 0 <= j < |notes| && j != k && notes[j].commitment == c ==> notes[j].spent
  }

  /** Row by row, what the UPDATE and memory make of note `j`. */
  lemma RowAgreesIff(notes: seq<L.LedgerNote>, c: Felt, k: nat, j: nat)
    requires LeafAscending(notes) && k < |notes| && notes[k].commitment == c && j < |notes|
    ensures var i := notes[j].leafIndex;
            var rows, t := MarkRows(NoteTable(notes), c), NoteTable(notes[k := notes[k].(spent := true)]);
            && i in rows && i in t
            && (rows[i] == t[i] <==> (j != k && notes[j].commitment == c ==> notes[j].spent))
  {
    hide NoteTable, LeafAscending;
    var marked := notes[k := notes[k].(spent := true)];
    NoteTableLists(notes);
    StillAscending(notes, k);
    NoteTableLists(marked);
    assert marked[j].leafIndex == notes[j].leafIndex;
    assert NoteTable(marked)[notes[j].leafIndex] == marked[j] && NoteTable(notes)[notes[j].leafIndex] == notes[j];
  }

  /** Memory marks one note of a commitment, the UPDATE every row of it. They agree exactly when all the
      others are spent already. */
  lemma MarkAgreesIff(notes: seq<L.LedgerNote>, c: Felt, k: nat)
    requires LeafAscending(notes) && k < |notes| && notes[k].commitment == c
    ensures MarkRows(NoteTable(notes), c) == NoteTable(notes[k := notes[k].(spent := true)]) <==>
              TwinsSpent(notes, c, k)
  {
    hide NoteTable, LeafAscending, MarkRows;
    var marked := notes[k := notes[k].(spent := true)];
    var rows, t := MarkRows(NoteTable(notes), c), NoteTable(marked);
    if rows == t {
      forall j | 0 <= j < |notes| && j != k && notes[j].commitment == c
        ensures notes[j].spent
      {
        RowAgreesIff(notes, c, k, j);
      }
    }
    if TwinsSpent(notes, c, k) {
      StillAscending(notes, k);
      RowsByPosition(notes, marked);
      SameKeys(NoteTable(notes), c);
      NoteTableLists(marked);
      forall i | i in t
        ensures rows[i] == t[i]
      {
        var j :| 0 <= j < |marked| && marked[j].leafIndex == i;
        RowAgreesIff(notes, c, k, j);
      }
      assert rows == t;
    }
  }

  lemma SameKeys(t: map<nat, L.LedgerNote>, c: Felt)
    ensures MarkRows(t, c).Keys == t.Keys
  {
  }

  lemma StillAscending(notes: seq<L.LedgerNote>, k: nat)
    requires LeafAscending(notes) && k < |notes|
    ensures LeafAscending(notes[k := notes[k].(spent := true)])
  {
    var marked := notes[k := notes[k].(spent := true)];
    assert forall j :: 0 <= j < |notes| ==> marked[j].leafIndex == notes[j].leafIndex;
  }

  lemma RowsByPosition(notes: seq<L.LedgerNote>, marked: seq<L.LedgerNote>)
    requires LeafAscending(notes) && LeafAscending(marked) && |notes| == |marked|
    requires forall j :: 0 <= j < |notes| ==> marked[j].leafIndex == notes[j].leafIndex
    ensures NoteTable(notes).Keys == NoteTable(marked).Keys
  {
    hide NoteTable, LeafAscending;
    NoteTableLists(notes);
    NoteTableLists(marked);
    forall i
      ensures i in NoteTable(notes) <==> i in NoteTable(marked)
    {
      if i in NoteTable(notes) {
        var j :| 0 <= j < |notes| && notes[j].leafIndex == i;
        assert marked[j].leafIndex == i;
      }
      if i in NoteTable(marked) {
        var j :| 0 <= j < |marked| && marked[j].leafIndex == i;
        assert notes[j].leafIndex == i;
      }
    }
  }

  /** So two unspent notes under one commitment make them disagree: the durable rows then say a note is
      spent that the read model serves as unspent. */
  lemma TwinCommitmentsDiverge(twin: L.LedgerNote, other: L.LedgerNote)
    requires twin.commitment == other.commitment && twin.leafIndex < other.leafIndex && !twin.spent && !other.spent
    ensures var s := L.EMPTY.(notes := [twin, other], byCommitment := IndexAll([twin, other]));
            && L.MarkSpent(s, twin.commitment).notes == [twin, other.(spent := true)]
            && MarkRows(NoteTable(s.notes), twin.commitment) != NoteTable(L.MarkSpent(s, twin.commitment).notes)
  {
    hide NoteTable;
    var notes := [twin, other];
    assert notes[..1] == [twin] && [twin][..0] == [];
    MarkAgreesIff(notes, twin.commitment, 1);
    assert notes[0].commitment == twin.commitment && !notes[0].spent;
  }

  /** The alarm table keeps every alarm exactly when no two have one (tx, detail). */
  lemma {:induction false} AlarmsKeptIff(alarms: seq<L.Alarm>)
    ensures |StageAlarms([], alarms)| <= |alarms|
    ensures StageAlarms([], alarms) == alarms <==> DistinctAlarms(alarms)
  {
    if alarms != [] {
      var init, last := alarms[..|alarms| - 1], alarms[|alarms| - 1];
      AlarmsKeptIff(init);
      var rows := StageAlarms([], init);
      if rows == init {
        assert alarms == init + [last];
        assert DistinctAlarms(alarms) <==>
          DistinctAlarms(init) && forall i :: 0 <= i < |init| ==> !SameAlarm(init[i], last);
      } else if |StageAlarms([], alarms)| == |alarms| {
        assert rows == StageAlarms([], alarms)[..|init|];
      }
    }
  }

  /** And two ops of one transaction can raise such a pair: a KEM binding mismatch names nothing but the
      transaction. The second alarm is served until the next reboot and never becomes a row. */
  lemma TwinRejectionsCollapse(a: L.OpEnvelope, b: L.OpEnvelope, ra: Felt, rb: Felt, ea: Felt, eb: Felt)
    requires L.WellShaped(a) && L.WellShaped(b) && a.key.txHash == b.key.txHash && a.key != b.key
    requires a.envelope == L.KemRejected(L.KemBinding, ra, ea) && b.envelope == L.KemRejected(L.KemBinding, rb, eb)
    ensures var s := L.Apply(L.Apply(L.EMPTY, a).0, b).0;
            && L.Apply(L.EMPTY, a).2 && L.Apply(L.Apply(L.EMPTY, a).0, b).2
            && |s.alarms| == 2 && s.pendingAlarms == s.alarms && |Stage(NO_ROWS, s).alarms| < 2
  {
    hide L.WellShaped;
    var first := L.Alarm(a.kind, a.key.txHash, L.KemBinding, ra, ea);
    var second := L.Alarm(b.kind, b.key.txHash, L.KemBinding, rb, eb);
    var s := L.Apply(L.Apply(L.EMPTY, a).0, b).0;
    assert s.alarms == [first, second] && s.pendingAlarms == [first, second];
    AlarmsKeptIff([first, second]);
    assert SameAlarm([first, second][0], [first, second][1]);
    KeptOrFewer([first, second]);
  }

  lemma {:induction false} KeptOrFewer(alarms: seq<L.Alarm>)
    ensures |StageAlarms([], alarms)| == |alarms| ==> StageAlarms([], alarms) == alarms
  {
    if alarms != [] {
      AlarmsKeptIff(alarms[..|alarms| - 1]);
      KeptOrFewer(alarms[..|alarms| - 1]);
      assert alarms == alarms[..|alarms| - 1] + [alarms[|alarms| - 1]];
    }
  }
}
