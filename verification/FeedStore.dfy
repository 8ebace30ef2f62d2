/** The PostgresStore object and the InMemoryStore it wraps: store.ts and postgres.ts step by step. */
module FeedStore {
  import opened Field
  import opened Chain
  import opened Feed
  import opened Tables
  import D = Disclosure

  function AddOne(s: State, nf: Felt): State {
    if nf == 0 || nf in s.nullifiers then s
    else s.(nullifiers := s.nullifiers + {nf}, pendingNullifiers := s.pendingNullifiers + [nf])
  }

  lemma {:induction false} ReplayBuffersNothing(rows: seq<Entry>)
    ensures Replay(rows).pendingEvents == [] && Replay(rows).pendingNullifiers == []
  {
    if rows != [] {
      ReplayBuffersNothing(rows[..|rows| - 1]);
    }
  }

  lemma FoldStep(s: State, nfs: seq<Felt>, i: nat)
    requires i < |nfs|
    ensures AddNullifiers(s, nfs[..i + 1]) == AddOne(AddNullifiers(s, nfs[..i]), nfs[i])
  {
    assert nfs[..i + 1][..i] == nfs[..i];
  }

  class PostgresStore {
    var feed: seq<Entry>
    var seen: set<Key>
    var alarms: seq<D.Result>
    var nullifierSet: set<Felt>
    var seqNo: nat
    var lastBlock: int
    var pendingEvents: seq<nat> // feed positions stand for the entry objects
    var pendingNullifiers: seq<Felt>

    ghost function View(): State
      reads this
    {
      State(feed, seen, alarms, nullifierSet, lastBlock, pendingEvents, pendingNullifiers)
    }

    /** The counter is the length of the feed. */
    ghost predicate Counted()
      reads this
    {
      seqNo == |feed|
    }

    constructor ()
      ensures View() == EMPTY && Counted()
    {
      feed, seen, alarms, nullifierSet, seqNo, lastBlock := [], {}, [], {}, 0, -1;
      pendingEvents, pendingNullifiers := [], [];
    }

    /** addEvent of the read model: None for a replayed log. */
    method Add(d: Draft) returns (at: Option<nat>)
      requires Counted()
      modifies this`feed, this`seen, this`alarms, this`seqNo
      ensures Counted()
      ensures at == AddEvent(old(View()), d).1
      ensures View() == AddEvent(old(View()), d).0.(pendingEvents := old(pendingEvents))
    {
      if d.key in seen {
        return None;
      }
      seen := seen + {d.key};
      var entry := Entry(seqNo, d, None);
      seqNo := seqNo + 1;
      feed := feed + [entry];
      if d.disclosure.Some? && !d.disclosure.value.status.Verified? {
        alarms := alarms + [d.disclosure.value];
      }
      at := Some(|feed| - 1);
    }

    /** addEvent, buffered for the flush. */
    method AddBuffered(d: Draft) returns (at: Option<nat>)
      requires Counted()
      modifies this`feed, this`seen, this`alarms, this`seqNo, this`pendingEvents
      ensures Counted() && (View(), at) == AddEvent(old(View()), d)
    {
      at := Add(d);
      if at.Some? {
        pendingEvents := pendingEvents + [at.value];
      }
    }

    method AddSpent(nfs: seq<Felt>)
      modifies this`nullifierSet, this`pendingNullifiers
      ensures View() == AddNullifiers(old(View()), nfs)
    {
      var i := 0;
      assert nfs[..0] == [];
      while i < |nfs|
        invariant i <= |nfs| && View() == AddNullifiers(old(View()), nfs[..i])
      {
        FoldStep(old(View()), nfs, i);
        if nfs[i] != 0 && nfs[i] !in nullifierSet {
          nullifierSet := nullifierSet + {nfs[i]};
          pendingNullifiers := pendingNullifiers + [nfs[i]];
        }
        i := i + 1;
      }
      assert nfs[..|nfs|] == nfs;
    }

    /** The announcement lands on the entry object, buffered or not. */
    method Attach(at: nat, a: Announcement)
      requires at < |feed|
      modifies this`feed
      ensures View() == Announce(old(View()), at, a) && |feed| == |old(feed)|
    {
      feed := feed[at := feed[at].(announcement := Some(a))];
    }

    /** flushInto, short of the cursor row. */
    method FlushInto(db: Db) returns (db': Db)
      ensures db' == Stage(db, View(), db.cursor)
    {
      var t, i := db.events, 0;
      assert pendingEvents[..0] == [];
      while i < |pendingEvents|
        invariant i <= |pendingEvents| && t == StageEvents(db.events, feed, pendingEvents[..i])
      {
        assert pendingEvents[..i + 1][..i] == pendingEvents[..i];
        if pendingEvents[i] < |feed| {
          t := InsertRow(t, feed[pendingEvents[i]]);
        }
        i := i + 1;
      }
      assert pendingEvents[..|pendingEvents|] == pendingEvents;
      var ns := StageSpent(db.nullifiers, pendingNullifiers);
      db' := Db(t, ns, db.cursor);
    }

    /** persistCursorInto. */
    method PersistCursorInto(db: Db, block: int) returns (db': Db)
      ensures db' == db.(cursor := block)
    {
      db' := db.(cursor := block);
    }

    method CommitFlush()
      modifies this`pendingEvents, this`pendingNullifiers
      ensures View() == Core(old(View()))
    {
      pendingEvents, pendingNullifiers := [], [];
    }

    method SetLastBlock(block: int)
      modifies this`lastBlock
      ensures View() == old(View()).(lastBlock := block)
    {
      lastBlock := block;
    }

    /** boot: replay the payloads in seq order, unbuffered, then the nullifiers and the cursor. */
    method Boot(rows: seq<Entry>, nullifiers: set<Felt>, cursor: int)
      requires View() == EMPTY && Counted()
      modifies this
      ensures Counted() && View() == Replay(rows).(nullifiers := nullifiers, lastBlock := cursor)
    {
      var i := 0;
      assert rows[..0] == [];
      while i < |rows|
        invariant i <= |rows| && Counted() && View() == Replay(rows[..i])
      {
        assert rows[..i + 1][..i] == rows[..i];
        ReplayBuffersNothing(rows[..i]);
        BootRow(rows[i]);
        i := i + 1;
      }
      assert rows[..|rows|] == rows;
      nullifierSet, lastBlock := nullifiers, cursor;
    }

    /** One payload: the event again, with the announcement it was stored with. */
    method BootRow(e: Entry)
      requires Counted()
      modifies this`feed, this`seen, this`alarms, this`seqNo
      ensures Counted()
      ensures View() == if e.draft.key in old(seen) then old(View())
                        else
                          AddEvent(old(View()), e.draft).0
                          .(feed := old(feed) + [Entry(|old(feed)|, e.draft, e.announcement)],
                            pendingEvents := old(pendingEvents))
    {
      var at := Add(e.draft);
      if at.Some? && e.announcement.Some? {
        feed := feed[at.value := feed[at.value].(announcement := e.announcement)];
      }
    }
  }

  /** One row of the events table. */
  method InsertRow(t: map<nat, Entry>, e: Entry) returns (t': map<nat, Entry>)
    ensures t' == InsertEvent(t, e)
  {
    var clash, left := false, t.Keys;
    while left != {}
      invariant left <= t.Keys && (clash <==> exists i :: i in t && i !in left && t[i].draft.key == e.draft.key)
      decreases |left|
    {
      var i := PickOne(left);
      left := left - {i};
      if t[i].draft.key == e.draft.key {
        clash := true;
      }
    }
    t' := if clash then t else t[e.seqNo := e];
  }

  method StageSpent(t: set<Felt>, nfs: seq<Felt>) returns (t': set<Felt>)
    ensures t' == t + (set nf | nf in nfs)
  {
    t' := t;
    var i := 0;
    while i < |nfs|
      invariant i <= |nfs| && t' == t + (set nf | nf in nfs[..i])
    {
      assert nfs[..i + 1] == nfs[..i] + [nfs[i]];
      t' := t' + {nfs[i]};
      i := i + 1;
    }
    assert nfs[..|nfs|] == nfs;
  }
}
