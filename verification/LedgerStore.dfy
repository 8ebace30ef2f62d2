/** The PostgresLedger object: ledger.ts and postgres.ts step by step. Its maps are keyed by owner, as
    the source's are; the ghost feed is what the per-owner feeds are cut from. */
module LedgerStore {
  import opened Field
  import opened Chain
  import opened Tables
  import opened History
  import opened Ledger
  import Derive
  import FL = LedgerTables

  // ---- per-owner views ---------------------------------------------------------------

  /** Where an owner's notes are, in the order they were recorded. */
  function PositionsOf(notes: seq<LedgerNote>, owner: Owner): seq<nat> {
    if notes == [] then []
    else
      var n := |notes| - 1;
      PositionsOf(notes[..n], owner) + if notes[n].note.owner == owner then [n] else []
  }

  /** An owner's notes, in the order they were recorded. */
  function NotesFor(notes: seq<LedgerNote>, owner: Owner): seq<LedgerNote> {
    if notes == [] then []
    else
      var n := |notes| - 1;
      NotesFor(notes[..n], owner) + if notes[n].note.owner == owner then [notes[n]] else []
  }

  /** An owner's activity, by ascending seq. */
  function ItemsOf(feed: seq<Entry>, owner: Owner): seq<Item> {
    if feed == [] then []
    else
      var e := feed[|feed| - 1];
      ItemsOf(feed[..|feed| - 1], owner) + if e.owner == owner then [e.item] else []
  }

  /** Where an owner's items are in the feed. */
  function ItemPositions(feed: seq<Entry>, owner: Owner): (at: seq<nat>)
    ensures (forall k :: 0 <= k < |at| ==> at[k] < |feed|) && forall k, l :: 0 <= k < l < |at| ==> at[k] < at[l]
    ensures forall i: nat :: i in at <==> i < |feed| && feed[i].owner == owner
  {
    if feed == [] then []
    else
      var n := |feed| - 1;
      ItemPositions(feed[..n], owner) + if feed[n].owner == owner then [n] else []
  }

  /** An owner's activity is exactly the owner's part of the feed, in order. */
  lemma {:induction false} ItemsExact(feed: seq<Entry>, owner: Owner)
    ensures var items, at := ItemsOf(feed, owner), ItemPositions(feed, owner);
            |items| == |at| && forall k {:trigger at[k]} :: 0 <= k < |at| ==> items[k] == feed[at[k]].item
  {
    if feed != [] {
      ItemsExact(feed[..|feed| - 1], owner);
    }
  }

  function Lookup<T>(m: map<Owner, seq<T>>, owner: Owner): seq<T> {
    if owner in m then m[owner] else []
  }

  lemma {:induction false} PositionsIgnoreFlags(a: seq<LedgerNote>, b: seq<LedgerNote>, owner: Owner)
    requires |a| == |b| && forall i :: 0 <= i < |a| ==> a[i].note == b[i].note
    ensures PositionsOf(a, owner) == PositionsOf(b, owner)
  {
    if a != [] {
      PositionsIgnoreFlags(a[..|a| - 1], b[..|b| - 1], owner);
    }
  }

  lemma {:induction false} PositionsWithin(notes: seq<LedgerNote>, owner: Owner)
    ensures |PositionsOf(notes, owner)| == |NotesFor(notes, owner)|
    ensures forall i {:trigger PositionsOf(notes, owner)[i]} :: 0 <= i < |PositionsOf(notes, owner)| ==>
              PositionsOf(notes, owner)[i] < |notes| && notes[PositionsOf(notes, owner)[i]] == NotesFor(notes, owner)[i]
  {
    if notes != [] {
      PositionsWithin(notes[..|notes| - 1], owner);
    }
  }

  /** Those are exactly the owner's notes, ascending. */
  lemma {:induction false} PositionsExact(notes: seq<LedgerNote>, owner: Owner)
    ensures var at := PositionsOf(notes, owner);
            && (forall k :: 0 <= k < |at| ==> at[k] < |notes|)
            && (forall k, l :: 0 <= k < l < |at| ==> at[k] < at[l])
            && forall i: nat :: i in at <==> i < |notes| && notes[i].note.owner == owner
  {
    if notes != [] {
      PositionsExact(notes[..|notes| - 1], owner);
    }
  }

  lemma {:induction false} ItemsAscend(feed: seq<Entry>, owner: Owner)
    requires forall k :: 0 <= k < |feed| ==> feed[k].item.seqNo == k
    ensures Ascending(ItemsOf(feed, owner))
    ensures forall i :: 0 <= i < |ItemsOf(feed, owner)| ==> ItemsOf(feed, owner)[i].seqNo < |feed|
  {
    if feed != [] {
      ItemsAscend(feed[..|feed| - 1], owner);
    }
  }

  /** A fresh seq is past every other, so the ordered insert is an append. */
  lemma PushAppends(feed: seq<Entry>, owner: Owner, item: Item)
    requires (forall k :: 0 <= k < |feed| ==> feed[k].item.seqNo == k) && item.seqNo == |feed|
    ensures PushHistory(ItemsOf(feed, owner), item) == ItemsOf(feed, owner) + [item]
  {
    ItemsAscend(feed, owner);
  }

  /** The owner map indexes exactly the notes. */
  ghost predicate NotesIndexed(notes: seq<LedgerNote>, byOwner: map<Owner, seq<nat>>) {
    forall o {:trigger Lookup(byOwner, o)} :: Lookup(byOwner, o) == PositionsOf(notes, o)
  }

  /** The history map indexes exactly the feed, which is numbered by position. */
  ghost predicate FeedIndexed(feed: seq<Entry>, historyByOwner: map<Owner, seq<Item>>) {
    && (forall o {:trigger Lookup(historyByOwner, o)} :: Lookup(historyByOwner, o) == ItemsOf(feed, o))
    && (forall k :: 0 <= k < |feed| ==> feed[k].item.seqNo == k)
  }

  lemma NoteIndexed(notes: seq<LedgerNote>, byOwner: map<Owner, seq<nat>>, n: LedgerNote)
    requires NotesIndexed(notes, byOwner)
    ensures NotesIndexed(notes + [n], byOwner[n.note.owner := Lookup(byOwner, n.note.owner) + [|notes|]])
  {
    var byOwner' := byOwner[n.note.owner := Lookup(byOwner, n.note.owner) + [|notes|]];
    assert (notes + [n])[..|notes|] == notes;
    forall o
      ensures Lookup(byOwner', o) == PositionsOf(notes + [n], o)
    {
      assert Lookup(byOwner, o) == PositionsOf(notes, o);
    }
  }

  lemma MarkIndexed(notes: seq<LedgerNote>, byOwner: map<Owner, seq<nat>>, k: nat)
    requires NotesIndexed(notes, byOwner) && k < |notes|
    ensures NotesIndexed(notes[k := notes[k].(spent := true)], byOwner)
  {
    forall o
      ensures Lookup(byOwner, o) == PositionsOf(notes[k := notes[k].(spent := true)], o)
    {
      PositionsIgnoreFlags(notes, notes[k := notes[k].(spent := true)], o);
    }
  }

  lemma ItemIndexed(feed: seq<Entry>, historyByOwner: map<Owner, seq<Item>>, owner: Owner, item: Item)
    requires FeedIndexed(feed, historyByOwner) && item.seqNo == |feed|
    ensures FeedIndexed(feed + [Entry(owner, item)],
                        historyByOwner[owner := PushHistory(Lookup(historyByOwner, owner), item)])
  {
    var now := historyByOwner[owner := PushHistory(Lookup(historyByOwner, owner), item)];
    PushAppends(feed, owner, item);
    assert Lookup(historyByOwner, owner) == ItemsOf(feed, owner);
    assert (feed + [Entry(owner, item)])[..|feed|] == feed;
    forall o
      ensures Lookup(now, o) == ItemsOf(feed + [Entry(owner, item)], o)
    {
      assert Lookup(historyByOwner, o) == ItemsOf(feed, o);
    }
  }

  class PostgresLedger {
    var notes: seq<LedgerNote> // the note objects; a position is a reference
    var byOwner: map<Owner, seq<nat>>
    var byCommitment: map<Felt, nat>
    var historyByOwner: map<Owner, seq<Item>>
    ghost var feed: seq<Entry>
    var alarms: seq<Alarm>
    var applied: set<Key>
    var historySeq: nat
    var pendingNotes: seq<nat>
    var pendingSpent: seq<Felt>
    var pendingHistory: seq<Entry>
    var pendingAlarms: seq<Alarm>
    var pendingApplied: seq<Key>

    ghost function View(): State
      reads this
    {
      State(notes, byCommitment, feed, historySeq, alarms, applied, pendingNotes, pendingSpent, pendingHistory,
            pendingAlarms, pendingApplied)
    }

    /** The maps index exactly the notes and the feed. */
    ghost predicate Indexed()
      reads this
    {
      && NotesIndexed(notes, byOwner)
      && FeedIndexed(feed, historyByOwner)
      && historySeq == |feed|
    }

    constructor ()
      ensures View() == EMPTY && Indexed()
    {
      notes, byOwner, byCommitment, historyByOwner, feed, alarms, applied, historySeq := [], map[], map[], map[], [],
        [], {}, 0;
      pendingNotes, pendingSpent, pendingHistory, pendingAlarms, pendingApplied := [], [], [], [], [];
    }

    /** recordNote, buffered. */
    method Note(o: DerivedNote, txHash: nat)
      requires Indexed()
      modifies this`notes, this`byOwner, this`byCommitment, this`pendingNotes
      ensures Indexed() && View() == RecordNote(old(View()), o, txHash)
    {
      hide NotesIndexed, FeedIndexed;
      var at := |notes|;
      NoteIndexed(notes, byOwner, LedgerNote(o.note, o.leafIndex, o.commitment, txHash, false));
      notes := notes + [LedgerNote(o.note, o.leafIndex, o.commitment, txHash, false)];
      byOwner := byOwner[o.note.owner := Lookup(byOwner, o.note.owner) + [at]];
      byCommitment := byCommitment[o.commitment := at];
      pendingNotes := pendingNotes + [at];
    }

    /** The spent mark of one commitment. */
    method Mark(c: Felt)
      requires Indexed()
      modifies this`notes, this`pendingSpent
      ensures Indexed() && View() == MarkSpent(old(View()), c)
    {
      hide NotesIndexed, FeedIndexed;
      if c in byCommitment && byCommitment[c] < |notes| {
        var k := byCommitment[c];
        MarkIndexed(notes, byOwner, k);
        notes := notes[k := notes[k].(spent := true)];
        pendingSpent := pendingSpent + [notes[k].commitment];
      }
    }

    /** One history item: the next seq, the owner's feed, the buffer. */
    method Push(d: Draft, op: OpEnvelope)
      requires Indexed()
      modifies this`historyByOwner, this`feed, this`historySeq, this`pendingHistory
      ensures Indexed() && View() == RecordDraft(old(View()), d, op)
    {
      hide NotesIndexed, FeedIndexed;
      var item := Item(d.kind, d.counterparty, d.amount, op.key.txHash, op.blockTimestamp, historySeq);
      ItemIndexed(feed, historyByOwner, d.owner, item);
      historySeq := historySeq + 1;
      historyByOwner := historyByOwner[d.owner := PushHistory(Lookup(historyByOwner, d.owner), item)];
      pendingHistory := pendingHistory + [Entry(d.owner, item)];
      feed := feed + [Entry(d.owner, item)];
    }

    /** apply. */
    method Apply(op: OpEnvelope) returns (fill: Option<seq<Felt>>, ok: bool)
      requires Indexed() && WellShaped(op)
      modifies this
      ensures Indexed() && (View(), fill, ok) == Ledger.Apply(old(View()), op)
    {
      hide NotesIndexed, FeedIndexed, DeriveOp, Ledger.Record, WellShaped;
      if op.key in applied {
        return None, true;
      }
      applied := applied + {op.key};
      pendingApplied := pendingApplied + [op.key];
      var derived := Derive.Open(op);
      if derived.None? {
        return None, false;
      }
      RecordDerived(derived.value, op);
      fill, ok := derived.value.batchFill, true;
    }

    /** The recording half: notes, alarms, spent marks, history. */
    method RecordDerived(d: Derived, op: OpEnvelope)
      requires Indexed()
      modifies this`notes, this`byOwner, this`byCommitment, this`pendingNotes, this`alarms, this`pendingAlarms,
        this`pendingSpent,
        this`historyByOwner, this`feed, this`historySeq, this`pendingHistory
      ensures Indexed() && View() == Ledger.Record(old(View()), d, op)
    {
      hide NotesIndexed, FeedIndexed, RecordNotes, MarkAllSpent, RecordDrafts;
      NoteAll(d.outputs, op.key.txHash);
      alarms := alarms + d.alarms;
      pendingAlarms := pendingAlarms + d.alarms;
      MarkAll(d.spent);
      PushAll(d.history, op);
    }

    method NoteAll(outputs: seq<DerivedNote>, txHash: nat)
      requires Indexed()
      modifies this`notes, this`byOwner, this`byCommitment, this`pendingNotes
      ensures Indexed() && View() == RecordNotes(old(View()), outputs, txHash)
    {
      var i := 0;
      assert outputs[..0] == [];
      while i < |outputs|
        invariant i <= |outputs| && Indexed() && View() == RecordNotes(old(View()), outputs[..i], txHash)
      {
        assert outputs[..i + 1][..i] == outputs[..i];
        Note(outputs[i], txHash);
        i := i + 1;
      }
      assert outputs[..|outputs|] == outputs;
    }

    method MarkAll(cs: seq<Felt>)
      requires Indexed()
      modifies this`notes, this`pendingSpent
      ensures Indexed() && View() == MarkAllSpent(old(View()), cs)
    {
      var i := 0;
      assert cs[..0] == [];
      while i < |cs|
        invariant i <= |cs| && Indexed() && View() == MarkAllSpent(old(View()), cs[..i])
      {
        assert cs[..i + 1][..i] == cs[..i];
        Mark(cs[i]);
        i := i + 1;
      }
      assert cs[..|cs|] == cs;
    }

    method PushAll(drafts: seq<Draft>, op: OpEnvelope)
      requires Indexed()
      modifies this`historyByOwner, this`feed, this`historySeq, this`pendingHistory
      ensures Indexed() && View() == RecordDrafts(old(View()), drafts, op)
    {
      var i := 0;
      assert drafts[..0] == [];
      while i < |drafts|
        invariant i <= |drafts| && Indexed() && View() == RecordDrafts(old(View()), drafts[..i], op)
      {
        assert drafts[..i + 1][..i] == drafts[..i];
        Push(drafts[i], op);
        i := i + 1;
      }
      assert drafts[..|drafts|] == drafts;
    }

    /** notesOf: follow the owner's references. */
    method NotesOf(owner: Owner) returns (r: seq<LedgerNote>)
      requires Indexed()
      ensures r == NotesFor(notes, owner)
    {
      var at := Lookup(byOwner, owner);
      PositionsWithin(notes, owner);
      r := [];
      var i := 0;
      while i < |at|
        invariant i <= |at| && r == NotesFor(notes, owner)[..i]
      {
        r := r + [notes[at[i]]];
        i := i + 1;
      }
    }

    /** historyOf: one page, newest first, straight off the owner's feed. */
    method HistoryPage(owner: Owner, limit: Option<int>, before: Option<int>) returns (page: seq<Item>)
      requires Indexed()
      ensures Ascending(ItemsOf(feed, owner)) && page == HistoryOf(ItemsOf(feed, owner), limit, before)
    {
      hide ItemsOf, NotesIndexed, Backwards, Ascending;
      ItemsAscend(feed, owner);
      OwnItems(feed, historyByOwner, owner);
      var arr := Lookup(historyByOwner, owner);
      var start := StartBelow(arr, before);
      var cap := if limit.None? then |arr| else limit.value;
      var count := if start + 1 < cap then start + 1 else cap;
      page := WalkBack(arr, start, if count < 0 then 0 else count);
    }

    /** boot: the note rows by leaf, the history rows by seq, the alarms and the applied ops. */
    method Boot(noteRows: seq<LedgerNote>, historyRows: seq<Entry>, alarmRows: seq<Alarm>, opRows: set<Key>)
      requires View() == EMPTY && Indexed() && forall k :: 0 <= k < |historyRows| ==> historyRows[k].item.seqNo == k
      modifies this
      ensures Indexed()
      ensures View() == State(noteRows, FL.IndexAll(noteRows), historyRows, FL.NextSeq(historyRows), alarmRows, opRows,
                              [], [], [], [], [])
    {
      hide NotesIndexed, FeedIndexed;
      BootNotes(noteRows);
      BootHistory(historyRows);
      alarms, applied := alarmRows, opRows;
    }

    method BootNotes(rows: seq<LedgerNote>)
      requires View() == EMPTY && Indexed()
      modifies this`notes, this`byOwner, this`byCommitment
      ensures Indexed() && notes == rows && byCommitment == FL.IndexAll(rows)
    {
      hide NotesIndexed, FeedIndexed;
      var i := 0;
      assert rows[..0] == [];
      while i < |rows|
        invariant i <= |rows| && Indexed() && notes == rows[..i] && byCommitment == FL.IndexAll(rows[..i])
      {
        assert rows[..i + 1] == rows[..i] + [rows[i]] && rows[..i + 1][..i] == rows[..i];
        NoteIndexed(notes, byOwner, rows[i]);
        byOwner := byOwner[rows[i].note.owner := Lookup(byOwner, rows[i].note.owner) + [i]];
        notes := notes + [rows[i]];
        byCommitment := byCommitment[rows[i].commitment := i];
        i := i + 1;
      }
      assert rows[..|rows|] == rows;
    }

    method BootHistory(rows: seq<Entry>)
      requires feed == [] && Indexed() && forall k :: 0 <= k < |rows| ==> rows[k].item.seqNo == k
      modifies this`historyByOwner, this`feed, this`historySeq
      ensures Indexed() && feed == rows && historySeq == FL.NextSeq(rows)
    {
      hide NotesIndexed, FeedIndexed;
      var i := 0;
      while i < |rows|
        invariant i <= |rows| && Indexed() && feed == rows[..i]
      {
        ItemIndexed(feed, historyByOwner, rows[i].owner, rows[i].item);
        historyByOwner :=
          historyByOwner[rows[i].owner := PushHistory(Lookup(historyByOwner, rows[i].owner), rows[i].item)];
        feed := feed + [rows[i]];
        historySeq := rows[i].item.seqNo + 1;
        i := i + 1;
      }
    }

    /** flushInto. */
    method FlushInto(db: FL.Db) returns (db': FL.Db)
      ensures db' == FL.Stage(db, View())
    {
      var t := StageNoteRows(db.notes, notes, pendingNotes);
      t := StageSpentMarks(t, pendingSpent);
      var h := StageHistoryRows(db.history, pendingHistory);
      var a := StageAlarmRows(db.alarms, pendingAlarms);
      var keys, i := db.applied, 0;
      while i < |pendingApplied|
        invariant i <= |pendingApplied| && keys == db.applied + (set k | k in pendingApplied[..i])
      {
        assert pendingApplied[..i + 1] == pendingApplied[..i] + [pendingApplied[i]];
        keys := keys + {pendingApplied[i]};
        i := i + 1;
      }
      assert pendingApplied[..|pendingApplied|] == pendingApplied;
      db' := FL.Db(t, h, a, keys);
    }

    method CommitFlush()
      modifies this`pendingNotes, this`pendingSpent, this`pendingHistory, this`pendingAlarms, this`pendingApplied
      ensures View() == FL.Core(old(View())) && (old(Indexed()) ==> Indexed())
    {
      hide NotesIndexed, FeedIndexed;
      pendingNotes, pendingSpent, pendingHistory, pendingAlarms, pendingApplied := [], [], [], [], [];
    }
  }

  lemma OwnItems(feed: seq<Entry>, historyByOwner: map<Owner, seq<Item>>, owner: Owner)
    requires FeedIndexed(feed, historyByOwner)
    ensures Lookup(historyByOwner, owner) == ItemsOf(feed, owner)
  {
  }

  /** The backwards walk of a page. */
  method WalkBack(arr: seq<Item>, start: int, n: nat) returns (page: seq<Item>)
    requires n <= start + 1 <= |arr|
    ensures page == Backwards(arr, start, n)
  {
    page := [];
    var j := 0;
    while j < n
      invariant 0 <= j <= n && page == Backwards(arr, start, j)
    {
      PageStep(arr, start, j);
      page := page + [arr[start - j]];
      j := j + 1;
    }
  }

  lemma PageStep(arr: seq<Item>, start: int, j: nat)
    requires j < start + 1 <= |arr|
    ensures Backwards(arr, start, j + 1) == Backwards(arr, start, j) + [arr[start - j]]
  {
    BackwardsSplits(arr, start, j, 1);
    assert Backwards(arr, start - j, 1) == [arr[start - j]];
  }

  // ---- flushInto, table by table -----------------------------------------------------

  method StageNoteRows(t: map<nat, LedgerNote>, notes: seq<LedgerNote>, at: seq<nat>) returns (t': map<nat, LedgerNote>)
    ensures t' == FL.StageNotes(t, notes, at)
  {
    t' := t;
    var i := 0;
    assert at[..0] == [];
    while i < |at|
      invariant i <= |at| && t' == FL.StageNotes(t, notes, at[..i])
    {
      assert at[..i + 1][..i] == at[..i];
      if at[i] < |notes| {
        t' := InsertOrIgnore(t', notes[at[i]].leafIndex, notes[at[i]]);
      }
      i := i + 1;
    }
    assert at[..|at|] == at;
  }

  method StageSpentMarks(t: map<nat, LedgerNote>, cs: seq<Felt>) returns (t': map<nat, LedgerNote>)
    ensures t' == FL.StageSpent(t, cs)
  {
    t' := t;
    var i := 0;
    assert cs[..0] == [];
    while i < |cs|
      invariant i <= |cs| && t' == FL.StageSpent(t, cs[..i])
    {
      assert cs[..i + 1][..i] == cs[..i];
      t' := FL.MarkRows(t', cs[i]);
      i := i + 1;
    }
    assert cs[..|cs|] == cs;
  }

  method StageHistoryRows(t: map<nat, Entry>, rows: seq<Entry>) returns (t': map<nat, Entry>)
    ensures t' == FL.StageHistory(t, rows)
  {
    t' := t;
    var i := 0;
    assert rows[..0] == [];
    while i < |rows|
      invariant i <= |rows| && t' == FL.StageHistory(t, rows[..i])
    {
      assert rows[..i + 1][..i] == rows[..i];
      t' := InsertOrIgnore(t', rows[i].item.seqNo, rows[i]);
      i := i + 1;
    }
    assert rows[..|rows|] == rows;
  }

  method StageAlarmRows(t: seq<Alarm>, rows: seq<Alarm>) returns (t': seq<Alarm>)
    ensures t' == FL.StageAlarms(t, rows)
  {
    t' := t;
    var i := 0;
    assert rows[..0] == [];
    while i < |rows|
      invariant i <= |rows| && t' == FL.StageAlarms(t, rows[..i])
    {
      assert rows[..i + 1][..i] == rows[..i];
      if !exists j :: 0 <= j < |t'| && FL.SameAlarm(t'[j], rows[i]) {
        t' := t' + [rows[i]];
      }
      i := i + 1;
    }
    assert rows[..|rows|] == rows;
  }
}
