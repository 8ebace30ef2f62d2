/** What the indexer serves after any run: the event feed and the spent-nullifier set, read off the chain. */
module Served {
  import opened Field
  import opened Chain
  import opened Ingest
  import opened Recording
  import opened Correlation
  import opened Effects
  import opened Replay
  import opened Durable
  import opened Runs
  import opened Machine
  import opened Poll
  import opened Stale
  import opened Crash
  import opened Views
  import D = Disclosure
  import F = Feed
  import K = Kem
  import L = Ledger
  import C = Conservation
  import R = Registry

  /** The ops that leave an event: all but registrations, removals and chunk accepts. */
  predicate Announced(g: Group) {
    g.SpendGroup? || g.BatchGroup? || g.PrivGroup?
  }

  /** The places, among the first `n` groups, of those that leave an event. */
  function Announcers(gs: seq<Group>, n: nat): (at: seq<nat>)
    requires n <= |gs|
    ensures (forall k :: 0 <= k < |at| ==> at[k] < n) && forall k, l :: 0 <= k < l < |at| ==> at[k] < at[l]
    ensures forall i: nat :: i in at <==> i < n && Announced(gs[i])
  {
    if n == 0 then [] else Announcers(gs, n - 1) + if Announced(gs[n - 1]) then [n - 1] else []
  }

  /** The event of a group, spelled out on what it emitted. */
  ghost predicate EventOf(d: F.Draft, g: Group)
    requires WellFormed(g)
  {
    match g
    case SpendGroup(_, _, _, _, _, _, _, _, _, _) => SpendEntry(d, MainLog(g), PairsOf(g))
    case BatchGroup(_, _, _, _, _, _) => BatchEventOf(d, g)
    case PrivGroup(_, _, _, _, _, _, _, _) => PrivEventOf(d, g)
    case RegistryGroup(_, _, _) => false
    case AcceptGroup(_, _, _, _, _) => false
  }

  predicate Spends(g: Group, nf: Felt) {
    nf != 0 && ((g.SpendGroup? && nf in g.nfs) || (g.BatchGroup? && nf == g.nullifier)
                || (g.PrivGroup? && nf == g.nullifier))
  }

  /** One fresh group: its event, if it leaves one, after those before, and its nullifiers. */
  lemma EffectServes(m: Mem, g: Group)
    requires K.Valid(m.kem) && WellFormed(g) && GroupKey(g) !in m.feed.seen
    ensures var f, f' := m.feed, GroupEffect(m, g).0.feed;
            && |f'.feed| == |f.feed| + (if Announced(g) then 1 else 0) && f.feed <= f'.feed
            && (Announced(g) ==> EventOf(f'.feed[|f.feed|].draft, g))
            && (forall nf :: nf in f'.nullifiers <==> nf in f.nullifiers || Spends(g, nf))
  {
    hide GroupEffect, SpendEntry, BatchEventOf, PrivEventOf, PairsOf, LeavesIn, ChecksOut, ChunksOwed;
    match g {
      case SpendGroup(_, _, _, _, _, _, _, _, _, _) => SpendIsRecordedOnce(m, g);
      case BatchGroup(_, _, _, _, _, _) => BatchIsRecordedOnce(m, g);
      case PrivGroup(_, _, _, _, _, _, _, _) => PrivIsRecordedOnce(m, g);
      case RegistryGroup(_, _, _) => StreamShape(m, g);
      case AcceptGroup(_, _, _, _, _) => StreamShape(m, g);
    }
  }

  /** One event per place, in order. */
  ghost predicate ListsAt(feed: seq<F.Entry>, gs: seq<Group>, at: seq<nat>)
    requires AllWellFormed(gs)
  {
    |feed| == |at| && forall k {:trigger at[k]} :: 0 <= k < |at| ==> at[k] < |gs| && EventOf(feed[k].draft, gs[at[k]])
  }

  /** The events of the announcing groups among the first `n`, one each, in chain order. */
  ghost predicate Lists(feed: seq<F.Entry>, gs: seq<Group>, n: nat)
    requires AllWellFormed(gs) && n <= |gs|
  {
    ListsAt(feed, gs, Announcers(gs, n))
  }

  /** That is the feed, and the set is what the first `n` groups spend. */
  ghost predicate Serves(f: F.State, gs: seq<Group>, n: nat)
    requires AllWellFormed(gs) && n <= |gs|
  {
    Lists(f.feed, gs, n) && forall nf :: nf in f.nullifiers <==> exists i :: 0 <= i < n && Spends(gs[i], nf)
  }

  lemma ListsOneMore(feed: seq<F.Entry>, feed': seq<F.Entry>, gs: seq<Group>, at: seq<nat>, n: nat)
    requires AllWellFormed(gs) && n < |gs| && ListsAt(feed, gs, at)
    requires |feed'| == |feed| + (if Announced(gs[n]) then 1 else 0) && feed <= feed'
    requires Announced(gs[n]) ==> EventOf(feed'[|feed|].draft, gs[n])
    ensures ListsAt(feed', gs, at + if Announced(gs[n]) then [n] else [])
  {
    hide EventOf, WellFormed, Announced;
  }

  lemma ServesOneMore(f: F.State, f': F.State, gs: seq<Group>, n: nat)
    requires AllWellFormed(gs) && n < |gs| && Serves(f, gs, n) && Lists(f'.feed, gs, n + 1)
    requires forall nf :: nf in f'.nullifiers <==> nf in f.nullifiers || Spends(gs[n], nf)
    ensures Serves(f', gs, n + 1)
  {
    hide Lists, Spends, WellFormed;
    forall nf
      ensures nf in f'.nullifiers <==> exists i :: 0 <= i < n + 1 && Spends(gs[i], nf)
    {
      if i :| 0 <= i < n + 1 && Spends(gs[i], nf) {
        assert i < n || i == n;
      }
    }
  }

  /** Over the run that never failed. */
  lemma {:induction false} CleanServes(gs: seq<Group>, n: nat)
    requires AllWellFormed(gs) && DistinctKeys(gs) && n <= |gs|
    ensures Serves(Clean(gs, n).feed, gs, n)
  {
    hide GroupEffect, GroupKey, WellFormed, Clean, Inserted, FedWithin, Serves, ListsAt, EventOf, Spends, Announced;
    if n == 0 {
      NothingServed(gs);
    } else {
      CleanServes(gs, n - 1);
      CleanFeeds(gs, n - 1);
      CleanUnfolds(gs, n);
      var m, g := Clean(gs, n - 1), gs[n - 1];
      InsertedFeed(m, g);
      KeyIsFresh(m, gs, n - 1);
      EffectServes(Inserted(m, g), g);
      FeedIsListed(m.feed, gs, n - 1);
      ListsOneMore(m.feed.feed, Clean(gs, n).feed.feed, gs, Announcers(gs, n - 1), n - 1);
      ServesOneMore(m.feed, Clean(gs, n).feed, gs, n - 1);
    }
  }

  lemma FeedIsListed(f: F.State, gs: seq<Group>, n: nat)
    requires AllWellFormed(gs) && n <= |gs| && Serves(f, gs, n)
    ensures ListsAt(f.feed, gs, Announcers(gs, n))
  {
  }

  lemma NothingServed(gs: seq<Group>)
    requires AllWellFormed(gs)
    ensures Serves(Clean(gs, 0).feed, gs, 0)
  {
  }

  lemma KeyIsFresh(m: Mem, gs: seq<Group>, n: nat)
    requires AllWellFormed(gs) && DistinctKeys(gs) && n < |gs| && FedWithin(m, gs, n)
    ensures GroupKey(gs[n]) !in m.feed.seen
  {
  }

  lemma SameFeed(f: F.State, f': F.State, gs: seq<Group>, n: nat)
    requires AllWellFormed(gs) && n <= |gs| && Serves(f, gs, n) && FeedView(f) == FeedView(f')
    ensures Serves(f', gs, n)
  {
  }

  lemma FeedOfView(a: Mem, b: Mem)
    requires View(a) == View(b)
    ensures FeedView(a.feed) == FeedView(b.feed)
  {
  }

  /** After any run whose commits settle, whatever was cut, rolled back, committed unreported, crashed or
      rebooted, a poll that goes through serves one event per op of the chain up to where it stands, in
      chain order and told by what the op emitted, and has exactly the nonzero nullifiers of those ops. */
  lemma FeedAfterAnyRun(gs: seq<Group>, steps: seq<Step>)
    requires AllWellFormed(gs)
    requires Honest(gs) && Run(gs, steps).Some? && AllSettle(gs, steps)
    requires Run(gs, steps).value.process.Up? && Run(gs, steps).value.process.complete
    ensures var u := Run(gs, steps).value.process;
            var h, d := Cut(gs, u.head), Beyond(gs, u.m, From(gs, u.m));
            h <= d <= |gs| && Leafless(gs, h, d) && Serves(u.m.feed, gs, d)
  {
    hide Honest, Run, Clean, View, WellFormed, Cut, Beyond, From, AllSettle, Leafless, Serves, FeedView, DistinctKeys;
    HonestParts(gs);
    KeysDiffer(gs);
    ResumedRunIsTheCleanRun(gs, steps);
    var u := Run(gs, steps).value.process;
    var d := Beyond(gs, u.m, From(gs, u.m));
    CleanServes(gs, d);
    FeedOfView(Clean(gs, d), u.m);
    SameFeed(Clean(gs, d).feed, u.m.feed, gs, d);
  }

  lemma KeysDiffer(gs: seq<Group>)
    requires AllWellFormed(gs) && ChainOk(gs)
    ensures DistinctKeys(gs)
  {
  }

  // ---- the registry ------------------------------------------------------------------

  predicate Moves(g: Group, a: Address) {
    g.RegistryGroup? && g.moduleAddr == a
  }

  /** The last of the first `n` groups to move the module registers it. */
  ghost predicate LastRegisters(gs: seq<Group>, n: nat, a: Address)
    requires n <= |gs|
  {
    exists i {:trigger Moves(gs[i], a)} ::
      0 <= i < n && Moves(gs[i], a) && gs[i].registered && forall j :: i < j < n ==> !Moves(gs[j], a)
  }

  lemma LastOneMore(gs: seq<Group>, n: nat, a: Address)
    requires n < |gs|
    ensures LastRegisters(gs, n + 1, a) <==> if Moves(gs[n], a) then gs[n].registered else LastRegisters(gs, n, a)
  {
    if Moves(gs[n], a) && gs[n].registered {
      assert Moves(gs[n], a);
    }
    if LastRegisters(gs, n, a) && !Moves(gs[n], a) {
      var i :| 0 <= i < n && Moves(gs[i], a) && gs[i].registered && forall j :: i < j < n ==> !Moves(gs[j], a);
      assert forall j :: i < j < n + 1 ==> !Moves(gs[j], a);
    }
  }

  lemma EffectRegisters(m: Mem, g: Group, a: Address)
    requires K.Valid(m.kem) && WellFormed(g) && GroupKey(g) !in m.modules.seen && GroupEffect(m, g).1
    ensures R.IsRegistered(GroupEffect(m, g).0.modules, a)
       <==> if Moves(g, a) then g.registered else R.IsRegistered(m.modules, a)
  {
    hide GroupEffect, PairsOf, FilledOrNot, R.Apply, K.AcceptChunk;
    match g {
      case SpendGroup(_, _, _, _, _, _, _, _, _, _) => SpendShape(m, g);
      case BatchGroup(_, _, _, _, _, _) => BatchShape(m, g);
      case PrivGroup(_, _, _, _, _, _, _, _) => PrivShape(m, g);
      case RegistryGroup(_, b, registered) =>
        StreamShape(m, g);
        R.ApplyExact(m.modules, GroupKey(g), b, registered, a);
      case AcceptGroup(_, _, _, _, _) => StreamShape(m, g);
    }
  }

  /** Over the run that never failed a module is registered exactly if the last group to move it says so. */
  lemma {:induction false} CleanRegisters(gs: seq<Group>, n: nat, a: Address)
    requires AllWellFormed(gs) && ChainOk(gs) && n <= |gs|
    ensures R.IsRegistered(Clean(gs, n).modules, a) <==> LastRegisters(gs, n, a)
  {
    hide GroupEffect, GroupKey, WellFormed, Clean, Inserted, SeenWithin, LastRegisters, Moves, ChainOk, Synced,
      RowsUpTo;
    if n == 0 {
      NothingRegistered(gs, a);
    } else {
      CleanRegisters(gs, n - 1, a);
      CleanIsSynced(gs, n - 1);
      CleanUnfolds(gs, n);
      var m, g := Clean(gs, n - 1), gs[n - 1];
      InsertedModules(m, g);
      ModuleKeyIsFresh(m, gs, n - 1);
      HandlerIsContent(gs, n - 1);
      EffectRegisters(Inserted(m, g), g, a);
      LastOneMore(gs, n - 1, a);
    }
  }

  lemma NothingRegistered(gs: seq<Group>, a: Address)
    requires AllWellFormed(gs)
    ensures R.IsRegistered(Clean(gs, 0).modules, a) <==> LastRegisters(gs, 0, a)
  {
  }

  lemma InsertedModules(m: Mem, g: Group)
    requires WellFormed(g)
    ensures Inserted(m, g).modules == m.modules
  {
  }

  lemma ModuleKeyIsFresh(m: Mem, gs: seq<Group>, n: nat)
    requires AllWellFormed(gs) && ChainOk(gs) && n < |gs| && SeenWithin(m, gs, n)
    ensures GroupKey(gs[n]) !in m.modules.seen
  {
    hide GroupKey, WellFormed, Truthful, GroupOk, OneVintage;
  }

  lemma HandlerIsContent(gs: seq<Group>, n: nat)
    requires AllWellFormed(gs) && ChainOk(gs) && n < |gs|
    ensures K.Valid(Inserted(Clean(gs, n), gs[n]).kem) && GroupEffect(Inserted(Clean(gs, n), gs[n]), gs[n]).1
  {
    hide GroupKey, WellFormed, Truthful, OneVintage, GroupEffect, Inserted, Attributed, DistinctKeys;
    InsertedFeed(Clean(gs, n), gs[n]);
    assert GroupOk(Inserted(Clean(gs, n), gs[n]), gs[n]);
  }

  lemma ModulesOfView(a: Mem, b: Mem, c: Address)
    requires View(a) == View(b)
    ensures R.IsRegistered(a.modules, c) == R.IsRegistered(b.modules, c)
  {
    assert R.Core(a.modules) == R.Core(b.modules);
  }

  /** And so it is after any such run, once a poll goes through. */
  lemma RegistryAfterAnyRun(gs: seq<Group>, steps: seq<Step>, a: Address)
    requires AllWellFormed(gs)
    requires Honest(gs) && Run(gs, steps).Some? && AllSettle(gs, steps)
    requires Run(gs, steps).value.process.Up? && Run(gs, steps).value.process.complete
    ensures var u := Run(gs, steps).value.process;
            var d := Beyond(gs, u.m, From(gs, u.m));
            d <= |gs| && (R.IsRegistered(u.m.modules, a) <==> LastRegisters(gs, d, a))
  {
    hide Honest, Run, Clean, View, WellFormed, Cut, Beyond, From, AllSettle, Leafless, LastRegisters, ChainOk;
    HonestParts(gs);
    ResumedRunIsTheCleanRun(gs, steps);
    var u := Run(gs, steps).value.process;
    var d := Beyond(gs, u.m, From(gs, u.m));
    CleanRegisters(gs, d, a);
    ModulesOfView(Clean(gs, d), u.m, a);
  }

  // ---- the ledger --------------------------------------------------------------------

  /** The op a group hands the ledger: a small op of the pool, or the opened tail of a pool batch. */
  function OpOf(g: Group): (op: Option<L.OpEnvelope>)
    requires WellFormed(g)
    ensures op.Some? ==> L.WellShaped(op.value)
  {
    match g
    case SpendGroup(_, _, kind, _, _, _, _, _, _, _) =>
      if Consumer(kind) then None else SpentShaped(g); Some(SpentOp(MainLog(g), PairsOf(g)))
    case BatchGroup(_, s, _, _, published, _) =>
      if published.Some? && |published.value.elements| > 4 * B then
        Some(BatchOp(MainLog(g), s, published.value.envelope))
      else None
    case _ => None
  }

  /** Everything the first `n` groups hand the ledger, in chain order. */
  function OpsUpTo(gs: seq<Group>, n: nat): (ops: seq<L.OpEnvelope>)
    requires AllWellFormed(gs) && n <= |gs|
    ensures forall i :: 0 <= i < |ops| ==> L.WellShaped(ops[i])
  {
    if n == 0 then []
    else OpsUpTo(gs, n - 1) + if OpOf(gs[n - 1]).Some? then [OpOf(gs[n - 1]).value] else []
  }

  lemma EffectBooks(m: Mem, g: Group)
    requires K.Valid(m.kem) && WellFormed(g) && GroupKey(g) !in m.feed.seen && ARBITER
    ensures GroupEffect(m, g).0.ledger
         == if OpOf(g).Some? then L.Apply(m.ledger, OpOf(g).value).0 else m.ledger
  {
    hide L.Apply, L.WellShaped, RecordPairs, PairsOf, SpentDraft, SpentOp, D.VerifyDisclosure, Consecutive,
      F.AddNullifiers, PrivDraft;
    match g {
      case SpendGroup(_, _, _, _, _, _, _, _, _, _) => SpentKey(MainLog(g), PairsOf(g));
      case BatchGroup(_, _, _, _, _, _) =>
      case PrivGroup(_, _, _, _, _, _, _, _) => PrivIsRecordedOnce(m, g);
      case RegistryGroup(_, _, _) =>
      case AcceptGroup(_, _, _, _, _) =>
    }
  }

  lemma {:induction false} CleanBooks(gs: seq<Group>, n: nat)
    requires AllWellFormed(gs) && DistinctKeys(gs) && n <= |gs| && ARBITER
    ensures Clean(gs, n).ledger == C.Run(OpsUpTo(gs, n))
  {
    hide GroupEffect, GroupKey, WellFormed, Clean, Inserted, FedWithin, OpOf, L.Apply, L.WellShaped;
    if n == 0 {
      NothingBooked(gs);
    } else {
      CleanBooks(gs, n - 1);
      CleanFeeds(gs, n - 1);
      CleanUnfolds(gs, n);
      var m, g, ops := Clean(gs, n - 1), gs[n - 1], OpsUpTo(gs, n - 1);
      InsertedFeed(m, g);
      InsertedLedger(m, g);
      KeyIsFresh(m, gs, n - 1);
      EffectBooks(Inserted(m, g), g);
      if OpOf(g).Some? {
        assert (ops + [OpOf(g).value])[..|ops|] == ops;
      } else {
        assert ops + [] == ops;
      }
    }
  }

  lemma NothingBooked(gs: seq<Group>)
    requires AllWellFormed(gs)
    ensures Clean(gs, 0).ledger == C.Run([])
  {
  }

  lemma InsertedLedger(m: Mem, g: Group)
    requires WellFormed(g)
    ensures Inserted(m, g).ledger == m.ledger
  {
  }

  lemma LedgerOfView(a: Mem, b: Mem)
    requires View(a) == View(b)
    ensures a.ledger.notes == b.ledger.notes && a.ledger.feed == b.ledger.feed && a.ledger.alarms == b.ledger.alarms
  {
  }

  /** With an authority key, after any such run, the ledger holds the notes, items and alarms of the ops the
      chain handed it up to there, booked one after the other; and if each of them could be booked and
      conserved value, every owner's activity nets to exactly what the owner can still spend. */
  lemma BooksAfterAnyRun(gs: seq<Group>, steps: seq<Step>)
    requires AllWellFormed(gs) && ARBITER
    requires Honest(gs) && Run(gs, steps).Some? && AllSettle(gs, steps)
    requires Run(gs, steps).value.process.Up? && Run(gs, steps).value.process.complete
    ensures var u := Run(gs, steps).value.process;
            var d := Beyond(gs, u.m, From(gs, u.m));
            && d <= |gs|
            && var ops := OpsUpTo(gs, d);
               && u.m.ledger.notes == C.Run(ops).notes && u.m.ledger.feed == C.Run(ops).feed
               && u.m.ledger.alarms == C.Run(ops).alarms
               && (C.GoodRun(ops) ==> forall owner ::
                     C.FeedTotal(u.m.ledger.feed, owner) == C.Balance(u.m.ledger.notes, owner))
  {
    hide Honest, Run, Clean, View, WellFormed, Cut, Beyond, From, AllSettle, Leafless, DistinctKeys, OpsUpTo, C.Run,
      C.GoodRun, L.WellShaped;
    HonestParts(gs);
    KeysDiffer(gs);
    ResumedRunIsTheCleanRun(gs, steps);
    var u := Run(gs, steps).value.process;
    var d := Beyond(gs, u.m, From(gs, u.m));
    CleanBooks(gs, d);
    LedgerOfView(Clean(gs, d), u.m);
    if C.GoodRun(OpsUpTo(gs, d)) {
      C.LedgerConserves(OpsUpTo(gs, d));
    }
  }
}
