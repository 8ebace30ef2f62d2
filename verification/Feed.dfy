/** apps/indexer/src/store.ts InMemoryStore behind postgres.ts PostgresStore: the ordered event feed,
    its disclosure alarms, and the spent-nullifier set. */
module Feed {
  import opened Field
  import opened Tables
  import opened Chain
  import D = Disclosure

  datatype EventKind =
    | DepositEvent | TransferEvent | Transfer10Event | Transfer10x2Event | DisburseEvent | WithdrawEvent
    | DepositPriv | TransferPriv | Transfer10x2Priv | WithdrawPriv | DisbursePriv

  datatype Announcement = Announcement(recipient: nat, ephemeralPub: nat, viewTag: nat)

  /** A projected event before it has a seq. `payload` stands for the ciphertext fields, which no
      indexer decision reads. */
  datatype Draft = Draft(
    key: Key,
    blockNumber: nat,
    kind: EventKind,
    leafIndices: seq<nat>,
    disclosure: Option<D.Result>,
    batchId: Option<nat>,
    outputCommitments: Option<seq<Felt>>,
    payload: nat)

  datatype Entry = Entry(seqNo: nat, draft: Draft, announcement: Option<Announcement>)

  /** A feed position stands for the entry object: an announcement attached later reaches the buffer. */
  datatype State = State(
    feed: seq<Entry>,
    seen: set<Key>,
    alarms: seq<D.Result>,
    nullifiers: set<Felt>,
    lastBlock: int,
    pendingEvents: seq<nat>,
    pendingNullifiers: seq<Felt>)

  const EMPTY := State([], {}, [], {}, -1, [], [])

  predicate Alarming(d: Draft) {
    d.disclosure.Some? && !d.disclosure.value.status.Verified?
  }

  /** Append with the next seq; None for a replayed (txHash, logIndex). */
  function AddEvent(s: State, d: Draft): (State, Option<nat>) {
    if d.key in s.seen then (s, None)
    else
      (s.(feed := s.feed + [Entry(|s.feed|, d, None)],
          seen := s.seen + {d.key},
          alarms := if Alarming(d) then s.alarms + [d.disclosure.value] else s.alarms,
          pendingEvents := s.pendingEvents + [|s.feed|]),
       Some(|s.feed|))
  }

  function Announce(s: State, at: nat, a: Announcement): State
    requires at < |s.feed|
  {
    s.(feed := s.feed[at := s.feed[at].(announcement := Some(a))])
  }

  /** Nonzero only, deduped by value. */
  function AddNullifiers(s: State, nfs: seq<Felt>): State {
    if nfs == [] then s
    else
      var init, nf := AddNullifiers(s, nfs[..|nfs| - 1]), nfs[|nfs| - 1];
      if nf == 0 || nf in init.nullifiers then init
      else init.(nullifiers := init.nullifiers + {nf}, pendingNullifiers := init.pendingNullifiers + [nf])
  }

  // ---- the feed's own invariants -----------------------------------------------------

  function AlarmsOf(feed: seq<Entry>): seq<D.Result> {
    if feed == [] then []
    else
      var d := feed[|feed| - 1].draft;
      AlarmsOf(feed[..|feed| - 1]) + if Alarming(d) then [d.disclosure.value] else []
  }

  function KeysOf(feed: seq<Entry>): set<Key> {
    set i | 0 <= i < |feed| :: feed[i].draft.key
  }

  lemma KeysOneMore(feed: seq<Entry>, e: Entry)
    ensures KeysOf(feed + [e]) == KeysOf(feed) + {e.draft.key}
  {
    forall k
      ensures k in KeysOf(feed + [e]) <==> k in KeysOf(feed) + {e.draft.key}
    {
      if k in KeysOf(feed) {
        var i :| 0 <= i < |feed| && feed[i].draft.key == k;
        assert (feed + [e])[i].draft.key == k;
      }
      assert (feed + [e])[|feed|] == e;
    }
  }

  /** seq is the position, the dedup keys are exactly the feed's, each log once, and the alarm channel
      is every disclosure that did not fully check out. */
  ghost predicate Valid(s: State) {
    && (forall i :: 0 <= i < |s.feed| ==> s.feed[i].seqNo == i)
    && s.seen == KeysOf(s.feed)
    && (forall i, j :: 0 <= i < j < |s.feed| ==> s.feed[i].draft.key != s.feed[j].draft.key)
    && (forall i :: 0 <= i < |s.pendingEvents| ==> s.pendingEvents[i] < |s.feed|)
    && s.alarms == AlarmsOf(s.feed)
  }

  /** The places of the entries with a verdict other than a full match. */
  function Failing(feed: seq<Entry>): (at: seq<nat>)
    ensures (forall k :: 0 <= k < |at| ==> at[k] < |feed|) && forall k, l :: 0 <= k < l < |at| ==> at[k] < at[l]
    ensures forall i: nat :: i in at <==>
              && i < |feed| && feed[i].draft.disclosure.Some?
              && feed[i].draft.disclosure.value.status != D.Verified
  {
    if feed == [] then []
    else
      var n := |feed| - 1;
      Failing(feed[..n])
      + if feed[n].draft.disclosure.Some? && feed[n].draft.disclosure.value.status != D.Verified then [n] else []
  }

  /** The alarm channel is, in feed order, the verdict of every mismatched, unverifiable or withheld
      publish, and of nothing else. */
  lemma {:induction false} AlarmsExact(feed: seq<Entry>)
    ensures |AlarmsOf(feed)| == |Failing(feed)|
    ensures forall k {:trigger AlarmsOf(feed)[k]} :: 0 <= k < |AlarmsOf(feed)| ==>
              feed[Failing(feed)[k]].draft.disclosure == Some(AlarmsOf(feed)[k])
  {
    if feed != [] {
      AlarmsExact(feed[..|feed| - 1]);
    }
  }

  lemma AddKeeps(s: State, d: Draft)
    requires Valid(s)
    ensures Valid(AddEvent(s, d).0)
  {
    if d.key !in s.seen {
      var s' := AddEvent(s, d).0;
      assert s'.feed[..|s.feed|] == s.feed;
      KeysOneMore(s.feed, Entry(|s.feed|, d, None));
      forall i | 0 <= i < |s.feed|
        ensures s.feed[i].draft.key != d.key
      {
        assert s.feed[i].draft.key in KeysOf(s.feed);
      }
    }
  }

  lemma {:induction false} AlarmsIgnoreAnnouncements(feed: seq<Entry>, feed': seq<Entry>)
    requires |feed| == |feed'| && forall i :: 0 <= i < |feed| ==> feed[i].draft == feed'[i].draft
    ensures AlarmsOf(feed) == AlarmsOf(feed')
  {
    if feed != [] {
      AlarmsIgnoreAnnouncements(feed[..|feed| - 1], feed'[..|feed| - 1]);
    }
  }

  lemma AnnounceKeeps(s: State, at: nat, a: Announcement)
    requires Valid(s) && at < |s.feed|
    ensures Valid(Announce(s, at, a))
  {
    var s' := Announce(s, at, a);
    AlarmsIgnoreAnnouncements(s.feed, s'.feed);
    forall i | 0 <= i < |s.feed|
      ensures s'.feed[i].draft == s.feed[i].draft
    {
    }
    assert KeysOf(s'.feed) == KeysOf(s.feed);
  }

  lemma {:induction false} NullifiersKeep(s: State, nfs: seq<Felt>)
    ensures var s' := AddNullifiers(s, nfs);
            && s' == s.(nullifiers := s'.nullifiers, pendingNullifiers := s'.pendingNullifiers)
            && s'.nullifiers == s.nullifiers + (set nf | nf in nfs && nf != 0)
  {
    if nfs != [] {
      NullifiersKeep(s, nfs[..|nfs| - 1]);
    }
  }

  // ---- the durable side --------------------------------------------------------------

  /** events: primary key seq, unique (txHash, logIndex). */
  datatype Db = Db(events: map<nat, Entry>, nullifiers: set<Felt>, cursor: int)

  const NO_ROWS := Db(map[], {}, -1)

  predicate HasKey(t: map<nat, Entry>, key: Key) {
    exists i :: i in t && t[i].draft.key == key
  }

  /** INSERT ... ON CONFLICT (tx_hash, log_index) DO NOTHING. */
  function InsertEvent(t: map<nat, Entry>, e: Entry): map<nat, Entry> {
    if HasKey(t, e.draft.key) then t else t[e.seqNo := e]
  }

  function StageEvents(t: map<nat, Entry>, feed: seq<Entry>, at: seq<nat>): map<nat, Entry> {
    if at == [] then t
    else
      var rest, i := StageEvents(t, feed, at[..|at| - 1]), at[|at| - 1];
      if i < |feed| then InsertEvent(rest, feed[i]) else rest
  }

  function EventTable(feed: seq<Entry>): map<nat, Entry> {
    map i | 0 <= i < |feed| :: feed[i]
  }

  /** flushInto, with the cursor the BlockCursor participant stages last. */
  function Stage(db: Db, s: State, block: int): Db {
    Db(StageEvents(db.events, s.feed, s.pendingEvents), db.nullifiers + (set nf | nf in s.pendingNullifiers), block)
  }

  function Dump(s: State, block: int): Db {
    Db(EventTable(s.feed), s.nullifiers, block)
  }

  function Core(s: State): State {
    s.(pendingEvents := [], pendingNullifiers := [])
  }

  /** boot(): replay the payloads in seq order. */
  function Replay(rows: seq<Entry>): State {
    if rows == [] then EMPTY
    else
      var init, e := Replay(rows[..|rows| - 1]), rows[|rows| - 1];
      if e.draft.key in init.seen then init
      else
        Core(AddEvent(init, e.draft).0).(feed := init.feed + [Entry(|init.feed|, e.draft, e.announcement)])
  }

  ghost function Boot(db: Db): State {
    Replay(SelectOrdered(db.events)).(nullifiers := db.nullifiers, lastBlock := db.cursor)
  }

  lemma {:induction false} TableInOrder(feed: seq<Entry>, n: nat)
    requires n <= |feed|
    ensures OrderBy(EventTable(feed), n) == feed[..n]
  {
    if n > 0 {
      TableInOrder(feed, n - 1);
      assert feed[..n] == feed[..n - 1] + [feed[n - 1]];
    }
  }

  /** The state a replay of the first `n` rows reaches. */
  function Replayed(s: State, n: nat): State
    requires n <= |s.feed|
  {
    State(s.feed[..n], KeysOf(s.feed[..n]), AlarmsOf(s.feed[..n]), {}, -1, [], [])
  }

  lemma KeyIsNew(s: State, n: nat)
    requires Valid(s) && n < |s.feed|
    ensures s.feed[n].draft.key !in KeysOf(s.feed[..n]) && s.feed[n].seqNo == n
  {
  }

  lemma {:induction false} ReplayRestores(s: State, n: nat)
    requires Valid(s) && n <= |s.feed|
    ensures Replay(s.feed[..n]) == Replayed(s, n)
  {
    hide Valid, Replay, KeysOf, AlarmsOf, Alarming;
    if n == 0 {
      NothingReplayed();
    } else {
      ReplayRestores(s, n - 1);
      KeyIsNew(s, n - 1);
      var init, e := s.feed[..n - 1], s.feed[n - 1];
      KeysOneMore(init, e);
      ReplayOneMore(init, e);
      AlarmsOneMore(init, e);
      assert s.feed[..n] == init + [e];
    }
  }

  lemma NothingReplayed()
    ensures Replay([]) == State([], KeysOf([]), AlarmsOf([]), {}, -1, [], [])
  {
  }

  /** One more row, in its place and under a key of its own. */
  lemma ReplayOneMore(init: seq<Entry>, e: Entry)
    requires e.draft.key !in Replay(init).seen && Replay(init).feed == init && e.seqNo == |init|
    requires Replay(init).pendingEvents == [] && Replay(init).pendingNullifiers == []
    ensures var s, d := Replay(init), e.draft;
            Replay(init + [e])
            == s.(feed := init + [e],
                  seen := s.seen + {d.key},
                  alarms := if Alarming(d) then s.alarms + [d.disclosure.value] else s.alarms)
  {
    assert (init + [e])[..|init|] == init && e == Entry(|init|, e.draft, e.announcement);
  }

  lemma AlarmsOneMore(init: seq<Entry>, e: Entry)
    ensures AlarmsOf(init + [e])
         == if Alarming(e.draft) then AlarmsOf(init) + [e.draft.disclosure.value] else AlarmsOf(init)
  {
    assert (init + [e])[..|init|] == init;
  }

  lemma TableHas(feed: seq<Entry>)
    ensures forall i :: i in EventTable(feed) <==> 0 <= i < |feed|
    ensures forall i :: 0 <= i < |feed| ==> EventTable(feed)[i] == feed[i]
  {
  }

  /** Booting from everything flushed gives back feed, seqs, alarms, dedup keys and nullifiers. */
  lemma BootRestores(s: State)
    requires Valid(s)
    ensures Boot(Dump(s, s.lastBlock)) == Core(s)
  {
    hide AlarmsOf, EventTable, Replay;
    TableHas(s.feed);
    SelectIsOrderBy(EventTable(s.feed), |s.feed|);
    TableInOrder(s.feed, |s.feed|);
    ReplayRestores(s, |s.feed|);
    assert s.feed[..|s.feed|] == s.feed;
  }

  /** The durable rows plus the buffers are the read model. */
  ghost predicate Synced(db: Db, s: State) {
    && Valid(s)
    && StageEvents(db.events, s.feed, s.pendingEvents) == EventTable(s.feed)
    && db.nullifiers + (set nf | nf in s.pendingNullifiers) == s.nullifiers
  }

  lemma {:induction false} StageIgnoresTail(t: map<nat, Entry>, feed: seq<Entry>, e: Entry, at: seq<nat>)
    requires forall i :: 0 <= i < |at| ==> at[i] < |feed|
    ensures StageEvents(t, feed + [e], at) == StageEvents(t, feed, at)
  {
    if at != [] {
      StageIgnoresTail(t, feed, e, at[..|at| - 1]);
    }
  }

  lemma AddStaysSynced(db: Db, s: State, d: Draft)
    requires Synced(db, s)
    ensures Synced(db, AddEvent(s, d).0)
  {
    hide Valid, EventTable, HasKey, StageEvents, Alarming;
    AddKeeps(s, d);
    if d.key !in s.seen {
      var e := Entry(|s.feed|, d, None);
      PendingInRange(s);
      StageIgnoresTail(db.events, s.feed, e, s.pendingEvents);
      StageOneMore(db.events, s.feed + [e], s.pendingEvents, |s.feed|);
      TableOneMore(s.feed, e);
      NewKeyIsNew(s, d.key);
    }
  }

  lemma StageOneMore(t: map<nat, Entry>, feed: seq<Entry>, at: seq<nat>, i: nat)
    requires i < |feed|
    ensures StageEvents(t, feed, at + [i]) == InsertEvent(StageEvents(t, feed, at), feed[i])
  {
    assert (at + [i])[..|at|] == at;
  }

  lemma TableOneMore(feed: seq<Entry>, e: Entry)
    ensures EventTable(feed + [e]) == EventTable(feed)[|feed| := e]
  {
  }

  lemma PendingInRange(s: State)
    requires Valid(s)
    ensures forall i :: 0 <= i < |s.pendingEvents| ==> s.pendingEvents[i] < |s.feed|
  {
  }

  lemma NewKeyIsNew(s: State, key: Key)
    requires Valid(s) && key !in s.seen
    ensures !HasKey(EventTable(s.feed), key)
  {
    TableHas(s.feed);
  }

  /** `now` is `was` with row `at`, if present, carrying the announcement. */
  ghost predicate AnnouncedRow(was: map<nat, Entry>, now: map<nat, Entry>, at: nat, e: Entry, e': Entry) {
    && now.Keys == was.Keys
    && forall i :: i in was ==> if i == at then was[i] == e && now[i] == e' else now[i] == was[i]
  }

  lemma SameKeys(was: map<nat, Entry>, now: map<nat, Entry>, at: nat, e: Entry, e': Entry, key: Key)
    requires AnnouncedRow(was, now, at, e, e') && e.draft == e'.draft
    ensures HasKey(was, key) <==> HasKey(now, key)
  {
    if HasKey(was, key) {
      var i :| i in was && was[i].draft.key == key;
      assert i in now && now[i].draft.key == key;
    }
    if HasKey(now, key) {
      var i :| i in now && now[i].draft.key == key;
      assert i in was && was[i].draft.key == key;
    }
  }

  lemma {:induction false} StageAfterAnnounce(t: map<nat, Entry>, s: State, at: nat, a: Announcement, ps: seq<nat>)
    requires Valid(s) && at < |s.feed| && at !in t
    ensures AnnouncedRow(StageEvents(t, s.feed, ps), StageEvents(t, Announce(s, at, a).feed, ps), at,
                         s.feed[at], Announce(s, at, a).feed[at])
  {
    if ps != [] {
      var init, p := ps[..|ps| - 1], ps[|ps| - 1];
      StageAfterAnnounce(t, s, at, a, init);
      if p < |s.feed| {
        SameKeys(StageEvents(t, s.feed, init), StageEvents(t, Announce(s, at, a).feed, init), at,
                 s.feed[at], Announce(s, at, a).feed[at], s.feed[p].draft.key);
      }
    }
  }

  /** An announcement reaches the durable row because the entry it mutates is still only buffered. */
  lemma AnnounceStaysSynced(db: Db, s: State, at: nat, a: Announcement)
    requires Synced(db, s) && at < |s.feed| && at !in db.events
    ensures Synced(db, Announce(s, at, a))
  {
    hide Valid, EventTable, StageEvents, HasKey;
    AnnounceKeeps(s, at, a);
    StageAfterAnnounce(db.events, s, at, a, s.pendingEvents);
    TableHas(s.feed);
    TableHas(Announce(s, at, a).feed);
  }

  lemma {:induction false} NullifiersStaySynced(db: Db, s: State, nfs: seq<Felt>)
    requires Synced(db, s)
    ensures Synced(db, AddNullifiers(s, nfs))
  {
    if nfs != [] {
      NullifiersStaySynced(db, s, nfs[..|nfs| - 1]);
      NullifiersKeep(s, nfs[..|nfs| - 1]);
    }
  }

  lemma {:induction false} RestageEvents(s: State, ps: seq<nat>)
    requires Valid(s) && forall i :: 0 <= i < |ps| ==> ps[i] < |s.feed|
    ensures StageEvents(EventTable(s.feed), s.feed, ps) == EventTable(s.feed)
  {
    if ps != [] {
      RestageEvents(s, ps[..|ps| - 1]);
      TableHas(s.feed);
      assert HasKey(EventTable(s.feed), s.feed[ps[|ps| - 1]].draft.key);
    }
  }

  /** Staging retained buffers again over rows that already landed changes nothing. */
  lemma RestageIsIdle(s: State, block: int)
    requires Valid(s) && (set nf | nf in s.pendingNullifiers) <= s.nullifiers
    ensures Stage(Dump(s, block), s, block) == Dump(s, block)
  {
    RestageEvents(s, s.pendingEvents);
  }
}
