/** The durable side of PostgresLedger: notes, spent marks, history, envelope alarms, applied ops. */
module LedgerTables {
  import opened Field
  import opened Tables
  import opened Chain
  import L = Ledger

  datatype Db = Db(notes: map<nat, L.LedgerNote>, history: map<nat, L.Entry>, alarms: seq<L.Alarm>, applied: set<Key>)

  const NO_ROWS := Db(map[], map[], [], {})

  // ---- flushInto ---------------------------------------------------------------------

  /** INSERT ... ON CONFLICT (leaf_index) DO NOTHING, with the flag the note has by now. */
  function StageNotes(t: map<nat, L.LedgerNote>, notes: seq<L.LedgerNote>, at: seq<nat>): map<nat, L.LedgerNote> {
    if at == [] then t
    else
      var rest, k := StageNotes(t, notes, at[..|at| - 1]), at[|at| - 1];
      if k < |notes| then InsertOrIgnore(rest, notes[k].leafIndex, notes[k]) else rest
  }

  /** UPDATE notes SET spent = TRUE WHERE commitment = c: every row with the commitment. */
  function MarkRows(t: map<nat, L.LedgerNote>, c: Felt): map<nat, L.LedgerNote> {
    map i | i in t :: if t[i].commitment == c then t[i].(spent := true) else t[i]
  }

  function StageSpent(t: map<nat, L.LedgerNote>, cs: seq<Felt>): map<nat, L.LedgerNote> {
    if cs == [] then t else MarkRows(StageSpent(t, cs[..|cs| - 1]), cs[|cs| - 1])
  }

  function StageHistory(t: map<nat, L.Entry>, rows: seq<L.Entry>): map<nat, L.Entry> {
    if rows == [] then t
    else
      var e := rows[|rows| - 1];
      InsertOrIgnore(StageHistory(t, rows[..|rows| - 1]), e.item.seqNo, e)
  }

  /** The natural key of envelope_alarms. */
  predicate SameAlarm(a: L.Alarm, b: L.Alarm) {
    a.txHash == b.txHash && a.detail == b.detail
  }

  function StageAlarms(t: seq<L.Alarm>, rows: seq<L.Alarm>): seq<L.Alarm> {
    if rows == [] then t
    else
      var rest, a := StageAlarms(t, rows[..|rows| - 1]), rows[|rows| - 1];
      if exists i :: 0 <= i < |rest| && SameAlarm(rest[i], a) then rest else rest + [a]
  }

  function Stage(db: Db, s: L.State): Db {
    Db(StageSpent(StageNotes(db.notes, s.notes, s.pendingNotes), s.pendingSpent),
       StageHistory(db.history, s.pendingHistory),
       StageAlarms(db.alarms, s.pendingAlarms),
       db.applied + (set k | k in s.pendingApplied))
  }

  // ---- what the tables hold when everything is flushed -------------------------------

  function NoteTable(notes: seq<L.LedgerNote>): map<nat, L.LedgerNote> {
    if notes == [] then map[]
    else
      var n := notes[|notes| - 1];
      NoteTable(notes[..|notes| - 1])[n.leafIndex := n]
  }

  function HistoryTable(feed: seq<L.Entry>): map<nat, L.Entry> {
    map k | 0 <= k < |feed| :: feed[k]
  }

  function Dump(s: L.State): Db {
    Db(NoteTable(s.notes), HistoryTable(s.feed), s.alarms, s.applied)
  }

  // ---- boot --------------------------------------------------------------------------

  function IndexAll(notes: seq<L.LedgerNote>): map<Felt, nat> {
    if notes == [] then map[]
    else IndexAll(notes[..|notes| - 1])[notes[|notes| - 1].commitment := |notes| - 1]
  }

  function NextSeq(feed: seq<L.Entry>): nat {
    if feed == [] then 0 else feed[|feed| - 1].item.seqNo + 1
  }

  ghost function Boot(db: Db): L.State {
    var notes, feed := SelectOrdered(db.notes), SelectOrdered(db.history);
    L.State(notes, IndexAll(notes), feed, NextSeq(feed), db.alarms, db.applied, [], [], [], [], [])
  }

  function Core(s: L.State): L.State {
    s.(pendingNotes := [], pendingSpent := [], pendingHistory := [], pendingAlarms := [], pendingApplied := [])
  }

  ghost predicate LeafAscending(notes: seq<L.LedgerNote>) {
    forall i, j :: 0 <= i < j < |notes| ==> notes[i].leafIndex < notes[j].leafIndex
  }

  ghost predicate DistinctCommitments(notes: seq<L.LedgerNote>) {
    forall i, j :: 0 <= i < j < |notes| ==> notes[i].commitment != notes[j].commitment
  }

  ghost predicate DistinctAlarms(alarms: seq<L.Alarm>) {
    forall i, j :: 0 <= i < j < |alarms| ==> !SameAlarm(alarms[i], alarms[j])
  }

  /** Notes recorded in leaf order under distinct commitments, feed numbered by position, no two
      alarms under one natural key. */
  ghost predicate Valid(s: L.State) {
    && LeafAscending(s.notes)
    && DistinctCommitments(s.notes)
    && s.byCommitment == IndexAll(s.notes)
    && (forall k :: 0 <= k < |s.feed| ==> s.feed[k].item.seqNo == k)
    && s.historySeq == |s.feed|
    && DistinctAlarms(s.alarms)
  }

  /** Every buffered row points into the read model, and only spent notes await their mark. */
  ghost predicate BuffersOk(s: L.State) {
    && (forall j :: 0 <= j < |s.pendingNotes| ==> s.pendingNotes[j] < |s.notes|)
    && (forall c :: c in s.pendingSpent ==> exists k :: 0 <= k < |s.notes| && s.notes[k].commitment == c)
    && (forall k :: 0 <= k < |s.notes| && s.notes[k].commitment in s.pendingSpent ==> s.notes[k].spent)
  }

  // ---- the note table ----------------------------------------------------------------

  /** `t` lists exactly `notes`, by leaf. */
  ghost predicate Lists(t: map<nat, L.LedgerNote>, notes: seq<L.LedgerNote>) {
    && (forall k :: 0 <= k < |notes| ==> notes[k].leafIndex in t && t[notes[k].leafIndex] == notes[k])
    && forall i :: i in t ==> exists k :: 0 <= k < |notes| && notes[k].leafIndex == i
  }

  lemma LastIsHighest(notes: seq<L.LedgerNote>)
    requires LeafAscending(notes) && notes != []
    ensures LeafAscending(notes[..|notes| - 1])
    ensures forall k :: 0 <= k < |notes| - 1 ==> notes[k].leafIndex < notes[|notes| - 1].leafIndex
  {
  }

  lemma ListsOneMore(t: map<nat, L.LedgerNote>, notes: seq<L.LedgerNote>, n: L.LedgerNote)
    requires Lists(t, notes) && forall k :: 0 <= k < |notes| ==> notes[k].leafIndex != n.leafIndex
    ensures Lists(t[n.leafIndex := n], notes + [n])
  {
    var t', notes' := t[n.leafIndex := n], notes + [n];
    assert notes'[|notes|] == n;
    forall i | i in t'
      ensures exists k :: 0 <= k < |notes'| && notes'[k].leafIndex == i
    {
      if i != n.leafIndex {
        var k :| 0 <= k < |notes| && notes[k].leafIndex == i;
        assert notes'[k] == notes[k];
      }
    }
  }

  lemma {:induction false} NoteTableLists(notes: seq<L.LedgerNote>)
    requires LeafAscending(notes)
    ensures Lists(NoteTable(notes), notes)
  {
    hide Lists, LeafAscending;
    if notes != [] {
      var init, last := notes[..|notes| - 1], notes[|notes| - 1];
      LastIsHighest(notes);
      NoteTableLists(init);
      ListsOneMore(NoteTable(init), init, last);
      assert notes == init + [last];
    } else {
      NothingListed();
    }
  }

  lemma NothingListed()
    ensures Lists(map[], [])
  {
  }

  lemma ListsBelow(t: map<nat, L.LedgerNote>, notes: seq<L.LedgerNote>, n: nat)
    requires Lists(t, notes) && forall k :: 0 <= k < |notes| ==> notes[k].leafIndex < n
    ensures forall i :: i in t ==> i < n
  {
  }

  lemma {:induction false} NotesInOrder(notes: seq<L.LedgerNote>, n: nat)
    requires LeafAscending(notes) && forall k :: 0 <= k < |notes| ==> notes[k].leafIndex < n
    ensures OrderBy(NoteTable(notes), n) == notes
    decreases |notes|
  {
    hide LeafAscending, Lists;
    if notes == [] {
      OrderByGap<L.LedgerNote>(map[], 0, n);
    } else {
      var init, last := notes[..|notes| - 1], notes[|notes| - 1];
      var at, t := last.leafIndex, NoteTable(init);
      LastIsHighest(notes);
      NotesInOrder(init, at);
      NoteTableLists(init);
      ListsBelow(t, init, at);
      OrderByAgree(t[at := last], t, at);
      OrderByGap(t[at := last], at + 1, n);
      assert notes == init + [last];
    }
  }

  lemma {:induction false} HistoryInOrder(feed: seq<L.Entry>, n: nat)
    requires n <= |feed|
    ensures OrderBy(HistoryTable(feed), n) == feed[..n]
  {
    if n > 0 {
      HistoryInOrder(feed, n - 1);
      assert feed[..n] == feed[..n - 1] + [feed[n - 1]];
    }
  }

  lemma NotesBoot(notes: seq<L.LedgerNote>)
    requires LeafAscending(notes)
    ensures SelectOrdered(NoteTable(notes)) == notes
  {
    hide LeafAscending, NoteTable, Lists;
    NoteTableLists(notes);
    var n := AboveAll(notes);
    ListsBelow(NoteTable(notes), notes, n);
    SelectIsOrderBy(NoteTable(notes), n);
    NotesInOrder(notes, n);
  }

  ghost function AboveAll(notes: seq<L.LedgerNote>): (n: nat)
    requires LeafAscending(notes)
    ensures forall k :: 0 <= k < |notes| ==> notes[k].leafIndex < n
  {
    if notes == [] then 0 else LastIsHighest(notes); notes[|notes| - 1].leafIndex + 1
  }

  lemma HistoryBoot(feed: seq<L.Entry>)
    ensures SelectOrdered(HistoryTable(feed)) == feed
  {
    SelectIsOrderBy(HistoryTable(feed), |feed|);
    HistoryInOrder(feed, |feed|);
  }

  /** Booting from everything flushed gives back every owner's notes in order with their flags, the
      feed, the next seq, the alarms and the applied set. */
  lemma BootRestores(s: L.State)
    requires Valid(s)
    ensures Boot(Dump(s)) == Core(s)
  {
    hide LeafAscending, DistinctCommitments, DistinctAlarms, NoteTable, HistoryTable, IndexAll;
    NotesBoot(s.notes);
    HistoryBoot(s.feed);
  }
}
