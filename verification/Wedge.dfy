/** A module removed inside a range whose persist then fails: when every retry of the range throws, a
    run that gets there, and what gets out. */
module Wedge {
  import opened Field
  import opened Merkle
  import opened Imt
  import opened Chain
  import opened Ingest
  import opened Correlation
  import opened Effects
  import opened Replay
  import opened Views
  import opened Durable
  import opened Runs
  import opened Watch
  import opened Machine
  import opened Gated
  import opened Poll
  import opened Stale
  import opened Boot
  import opened Reboot
  import opened Crash
  import opened Premises
  import K = Kem
  import R = Registry

  // ---- every retry throws ------------------------------------------------------------

  /** Among the groups the process has handled since its cursor, one that the gate still lets in comes
      after a dropped one of its transaction that draws from the same queue. */
  ghost predicate Wedged(gs: seq<Group>, p: Process)
    requires AllWellFormed(gs)
  {
    && p.Up? && !p.complete
    && var c, d := From(gs, p.m), Beyond(gs, p.m, From(gs, p.m));
       c <= d <= |gs| && Stuck(gs, Watched(p.m), c, d)
  }

  /** The blocked op inserted something, so the mirror is past every head before it. */
  lemma StuckIsAhead(gs: seq<Group>, w: set<Address>, c: nat, d: nat, n: nat)
    requires AllWellFormed(gs) && c <= n <= |gs| && c <= d <= |gs|
    requires Stuck(gs, w, c, d) && NobodyBlocked(gs, w, c, n)
    ensures |RowsUpTo(gs, n)| < |RowsUpTo(gs, d)|
  {
    hide WellFormed, GetsIn, RowsUpTo;
    var j :| c <= j < d && GetsIn(gs, w, c, j) && Blocked(gs, w, c, j);
    ContendHasLeaves(gs, w, c, j);
    NoRowsNoLeaves(gs, n, d);
  }

  lemma StandsSeen(gs: seq<Group>, a: Mem, b: Mem)
    requires View(a) == View(b) && a.feed.lastBlock == b.feed.lastBlock
    ensures Watched(a) == Watched(b) && From(gs, a) == From(gs, b)
  {
    ViewWatched(a, b);
  }

  lemma PollKeepsWedge(gs: seq<Group>, s: System, head: int, k: nat, q: nat)
    requires AllWellFormed(gs)
    requires Honest(gs) && Inv(gs, s) && s.process.Up? && Wedged(gs, s.process)
    requires K.Valid(s.process.m.kem) && s.process.m.feed.lastBlock < head
    ensures Wedged(gs, Polled(gs, s.process.m, head, k, q))
  {
    hide Honest, AtPoint, DoneBetween, Kept, Attempt, RowsUpTo, Reached, Cut, Watched, HeadMatches, NobodyBlocked,
      DurableIsClean, View, Clean, SeenWithin, Synced, WellFormed, Stuck, RunOn, Grown1, Beyond, NextOf, K.Valid;
    var m := s.process.m;
    var c, n, w := From(gs, m), Cut(gs, head), Watched(m);
    HonestParts(gs);
    CutGrows(gs, m.feed.lastBlock, head);
    var p, d :| Stands(gs, s.db, m, s.process.head, s.process.complete, p, d);
    BeyondIs(gs, s.db, m, s.process.head, s.process.complete, p, d);
    StandsWithin(gs, s.db, m, s.process.head, s.process.complete, p, d);
    var u := Polled(gs, m, head, k, q);
    if k < |Kept(gs, w, c, n)| {
      CutInPass1(s.db, m, gs, p, c, n, k, q, d);
      PollCutEarly(gs, s.db, m, p, d, head, k, q);
      StillAt(gs, s.db, m, u.m, head, u.complete, Max(p, Reached(gs, w, c, n, k)), d);
    } else {
      var d' := CutInPass2(s.db, m, gs, p, c, n, k, q, d);
      var p' := Max(p, |RowsUpTo(gs, n)|);
      HeadTells(gs, s.db, Attempt(m, gs, c, n, k, q).0, p', d', n);
      if NobodyBlocked(gs, w, c, n) {
        StuckIsAhead(gs, w, c, d, n);
      }
      StillAt(gs, s.db, m, u.m, head, false, p', d);
    }
  }

  /** Same groups handled, same cursor: same watch-set, same place. */
  lemma StillAt(gs: seq<Group>, db: Db, m: Mem, m': Mem, head: int, complete: bool, p: nat, d: nat)
    requires AllWellFormed(gs)
    requires ChainOk(gs) && m'.feed.lastBlock == m.feed.lastBlock && m.feed.lastBlock < head && K.Valid(m'.kem)
    requires d <= |gs| && View(m) == View(Clean(gs, d)) && From(gs, m) <= d
    requires AtPoint(db, m', gs, p, d) && DoneBetween(m', gs, From(gs, m), d)
    ensures Watched(m') == Watched(m) && From(gs, m') == From(gs, m) && Beyond(gs, m', From(gs, m')) == d
  {
    hide ChainOk, AtPoint, DoneBetween, View, Clean, WellFormed, Watched, RowsUpTo, Cut, Beyond, K.Valid;
    ViewOf(db, m', gs, p, d);
    StandsSeen(gs, m', m);
    BeyondIs(gs, db, m', head, false, p, d);
  }

  /** The wedge. From such a state on, whatever heads are polled, wherever the polls are cut and however
      often, no poll goes through and nothing is committed, until the process goes down. */
  lemma {:induction false} WedgedForGood(gs: seq<Group>, s: System, steps: seq<Step>)
    requires AllWellFormed(gs)
    requires Honest(gs) && Inv(gs, s) && s.process.Up? && Wedged(gs, s.process)
    requires RunFrom(gs, s, steps).Some? && forall i :: 0 <= i < |steps| ==> !steps[i].CrashNow?
    ensures var r := RunFrom(gs, s, steps).value;
            Inv(gs, r) && r.process.Up? && Wedged(gs, r.process) && !r.process.complete && r.db == s.db
    decreases |steps|
  {
    hide Honest, Inv, Wedged, Polled;
    if steps == [] {
      WedgedIsIncomplete(gs, s.process);
    } else {
      var init, last := steps[..|steps| - 1], steps[|steps| - 1];
      assert forall i :: 0 <= i < |init| ==> init[i] == steps[i];
      WedgedForGood(gs, s, init);
      var r := RunFrom(gs, s, init).value;
      StepKeepsWedge(gs, r, last);
    }
  }

  lemma WedgedIsIncomplete(gs: seq<Group>, p: Process)
    requires AllWellFormed(gs) && Wedged(gs, p)
    ensures p.Up? && !p.complete
  {
  }

  lemma StepKeepsWedge(gs: seq<Group>, r: System, step: Step)
    requires AllWellFormed(gs)
    requires Honest(gs) && Inv(gs, r) && r.process.Up? && Wedged(gs, r.process) && !step.CrashNow?
    requires Enabled(gs, r, step)
    ensures var r' := Do(gs, r, step);
            Inv(gs, r') && r'.process.Up? && Wedged(gs, r'.process) && !r'.process.complete && r'.db == r.db
  {
    hide Honest, Inv, Polled, Stuck, Beyond, From, Watched, Stage, Flushed, Booted, Settles;
    StepKeeps(gs, r, step);
    match step {
      case Poll(head, k, q) =>
        PollKeepsWedge(gs, r, head, k, q);
        WedgedIsIncomplete(gs, Polled(gs, r.process.m, head, k, q));
      case _ =>
    }
  }

  // ---- a poll from the cursor goes through -------------------------------------------

  /** Nothing handled past the cursor: the state of a boot, or of a commit at the newest head. */
  ghost predicate Rested(gs: seq<Group>, db: Db, m: Mem, head: int)
    requires AllWellFormed(gs)
  {
    Stands(gs, db, m, head, false, |RowsUpTo(gs, From(gs, m))|, From(gs, m))
  }

  lemma RestedPollCompletes(gs: seq<Group>, db: Db, m: Mem, was: int, head: int, k: nat, q: nat)
    requires AllWellFormed(gs)
    requires Honest(gs) && Rested(gs, db, m, was) && m.feed.lastBlock < head
    requires k >= |Flatten(gs)| && q >= |gs|
    ensures K.Valid(m.kem) && From(gs, m) <= Cut(gs, head)
    ensures var u := Polled(gs, m, head, k, q);
            && u.complete && Stands(gs, db, u.m, head, true, |RowsUpTo(gs, Cut(gs, head))|, Cut(gs, head))
            && u.m.feed.lastBlock == m.feed.lastBlock
  {
    hide Honest, AtPoint, DoneBetween, Kept, RowsUpTo, Cut, Watched, NobodyBlocked, View, Clean, SeenWithin, Synced,
      WellFormed, Stuck, NextOf, Flatten, K.Valid, Polled;
    var c, n := From(gs, m), Cut(gs, head);
    HonestParts(gs);
    CutGrows(gs, m.feed.lastBlock, head);
    StandsWithin(gs, db, m, was, false, |RowsUpTo(gs, c)|, c);
    KeptIsShort(gs, Watched(m), c, n);
    EverybodyGetsInFirst(db, m, gs, c, n);
    RowsArePrefix(gs, c, n);
    RestedGoesThrough(gs, db, m, head, k, q);
  }

  lemma RestedGoesThrough(gs: seq<Group>, db: Db, m: Mem, head: int, k: nat, q: nat)
    requires AllWellFormed(gs) && K.Valid(m.kem) && m.feed.lastBlock < head && From(gs, m) <= Cut(gs, head)
    requires var c, n := From(gs, m), Cut(gs, head);
             && Honest(gs) && AtPoint(db, m, gs, |RowsUpTo(gs, c)|, c) && DoneBetween(m, gs, c, c)
             && NobodyBlocked(gs, Watched(m), c, n) && |RowsUpTo(gs, c)| <= |RowsUpTo(gs, n)|
             && k >= |Kept(gs, Watched(m), c, n)| && q >= |gs|
    ensures var u := Polled(gs, m, head, k, q);
            && u.Up? && u.complete && u.m.feed.lastBlock == m.feed.lastBlock
            && Stands(gs, db, u.m, head, true, |RowsUpTo(gs, Cut(gs, head))|, Cut(gs, head))
  {
    hide Honest, AtPoint, DoneBetween, Kept, Attempt, RowsUpTo, Cut, Watched, HeadMatches, NobodyBlocked, View, Clean,
      SeenWithin, Synced, WellFormed, Stuck, RunOn, Grown1, NextOf, K.Valid;
    var c, n := From(gs, m), Cut(gs, head);
    HonestParts(gs);
    var d' := CutInPass2(db, m, gs, |RowsUpTo(gs, c)|, c, n, k, q, c);
    HeadTells(gs, db, Attempt(m, gs, c, n, k, q).0, |RowsUpTo(gs, n)|, d', n);
  }

  lemma KeptIsShort(gs: seq<Group>, w: set<Address>, c: nat, n: nat)
    requires AllWellFormed(gs) && c <= n <= |gs|
    ensures |Kept(gs, w, c, n)| <= |Flatten(gs)|
  {
    hide WellFormed, LogsOf, Gate, Flatten;
    GateShortens(w, Range(gs, c, n));
    RangeIs(gs, c, n);
    assert gs == gs[..c] + (gs[c..n] + gs[n..]);
    FlattenAdds(gs[c..n], gs[n..]);
    FlattenAdds(gs[..c], gs[c..n] + gs[n..]);
  }

  lemma BootIsRested(gs: seq<Group>, db: Db)
    requires AllWellFormed(gs)
    requires ChainOk(gs) && DurableIsClean(gs, db)
    ensures Rested(gs, db, Booted(db), db.feed.cursor) && Booted(db).feed.lastBlock == db.feed.cursor
  {
    hide ChainOk, AtPoint, RowsUpTo, Clean, Booted, Done, Dump, Cut;
    BootStands(gs, db);
    BootLands(gs, Cut(gs, db.feed.cursor), db.feed.cursor);
  }

  /** What gets out of it: a restart. Its first poll lets every op in and goes through. */
  lemma RestartUnwedges(gs: seq<Group>, db: Db, head: int, k: nat, q: nat)
    requires AllWellFormed(gs)
    requires Honest(gs) && DurableIsClean(gs, db) && db.feed.cursor < head
    requires k >= |Flatten(gs)| && q >= |gs|
    ensures K.Valid(Booted(db).kem) && Booted(db).feed.lastBlock == db.feed.cursor
    ensures Polled(gs, Booted(db), head, k, q).complete
  {
    hide Honest, DurableIsClean, Rested, Booted, Polled, Flatten, K.Valid;
    HonestParts(gs);
    BootIsRested(gs, db);
    RestedPollCompletes(gs, db, Booted(db), db.feed.cursor, head, k, q);
  }

  // ---- a run that gets there ---------------------------------------------------------

  /** Blocks up to `a` polled and committed, then blocks up to `b` polled, and that persist fails. */
  function FailedPersist(a: nat, b: nat, k: nat): seq<Step> {
    [BootUp, Poll(a, k, k), Commit, Poll(b, k, k), PersistFails]
  }

  lemma Snoc(gs: seq<Group>, steps: seq<Step>, step: Step)
    requires AllWellFormed(gs) && Run(gs, steps).Some? && Enabled(gs, Run(gs, steps).value, step)
    ensures Run(gs, steps + [step]) == Some(Do(gs, Run(gs, steps).value, step))
  {
    hide Enabled, Do;
    assert (steps + [step])[..|steps|] == steps;
  }

  lemma CommitRests(gs: seq<Group>, db: Db, m: Mem, head: int)
    requires AllWellFormed(gs)
    requires ChainOk(gs) && Stands(gs, db, m, head, true, |RowsUpTo(gs, Cut(gs, head))|, Cut(gs, head))
    ensures Rested(gs, Stage(db, m, head), Flushed(m, head), head) && Flushed(m, head).feed.lastBlock == head
  {
    hide ChainOk, AtPoint, DoneBetween, RowsUpTo, Cut, Stage, K.Valid;
    CommitLands(gs, db, m, head, |RowsUpTo(gs, Cut(gs, head))|, Cut(gs, head));
  }

  lemma BootedRun(gs: seq<Group>)
    requires AllWellFormed(gs)
    ensures Run(gs, [BootUp]) == Some(System(NO_ROWS, Up(Booted(NO_ROWS), -1, false)))
  {
    hide Booted;
    assert [BootUp][..0] == [];
    assert Run(gs, []) == Some(FRESH);
  }

  lemma PolledRun(gs: seq<Group>, steps: seq<Step>, s: System, head: nat, k: nat)
    requires AllWellFormed(gs) && Run(gs, steps) == Some(s) && s.process.Up?
    requires Honest(gs) && Rested(gs, s.db, s.process.m, s.process.head) && s.process.m.feed.lastBlock < head
    requires k >= |Flatten(gs)| && k >= |gs|
    ensures K.Valid(s.process.m.kem)
    ensures var u := Polled(gs, s.process.m, head, k, k);
            && Run(gs, steps + [Poll(head, k, k)]) == Some(s.(process := u)) && u.Up? && u.complete && u.head == head
            && Stands(gs, s.db, u.m, head, true, |RowsUpTo(gs, Cut(gs, head))|, Cut(gs, head))
            && u.m.feed.lastBlock == s.process.m.feed.lastBlock
  {
    hide Honest, Rested, Polled, Flatten, K.Valid, Cut, Stands, RowsUpTo, Run;
    RestedPollCompletes(gs, s.db, s.process.m, s.process.head, head, k, k);
    PolledShape(gs, s.process.m, head, k, k);
    Snoc(gs, steps, Poll(head, k, k));
  }

  lemma CommittedRun(gs: seq<Group>, steps: seq<Step>, s: System)
    requires AllWellFormed(gs) && Run(gs, steps) == Some(s) && s.process.Up? && s.process.complete
    requires var n := Cut(gs, s.process.head);
             ChainOk(gs) && Stands(gs, s.db, s.process.m, s.process.head, true, |RowsUpTo(gs, n)|, n)
    ensures var r := Run(gs, steps + [Commit]);
            && r.Some? && r.value.process.Up? && r.value.process.head == s.process.head
            && r.value.process.m.feed.lastBlock == s.process.head
            && Rested(gs, r.value.db, r.value.process.m, s.process.head)
  {
    hide ChainOk, Rested, Stage, Flushed, Cut, Stands, RowsUpTo, Run;
    CommitRests(gs, s.db, s.process.m, s.process.head);
    Snoc(gs, steps, Commit);
  }

  /** The first three steps: a cursor at `a`, nothing handled past it. */
  lemma FirstCommit(gs: seq<Group>, a: nat, k: nat)
    requires AllWellFormed(gs)
    requires Honest(gs) && k >= |Flatten(gs)| && k >= |gs|
    ensures var r := Run(gs, [BootUp, Poll(a, k, k), Commit]);
            && r.Some? && r.value.process.Up? && r.value.process.head == a && r.value.process.m.feed.lastBlock == a
            && Rested(gs, r.value.db, r.value.process.m, a)
  {
    hide Honest, Rested, Booted, Polled, Flatten, K.Valid, DurableIsClean, Cut, Run, Stands, RowsUpTo;
    HonestParts(gs);
    FreshIsClean(gs);
    CleanNow(gs, FRESH);
    BootIsRested(gs, NO_ROWS);
    BootedRun(gs);
    var s1 := System(NO_ROWS, Up(Booted(NO_ROWS), -1, false));
    PolledRun(gs, [BootUp], s1, a, k);
    assert [BootUp] + [Poll(a, k, k)] == [BootUp, Poll(a, k, k)];
    CommittedRun(gs, [BootUp, Poll(a, k, k)], s1.(process := Polled(gs, s1.process.m, a, k, k)));
    assert [BootUp, Poll(a, k, k)] + [Commit] == [BootUp, Poll(a, k, k), Commit];
  }

  lemma FailedRun(gs: seq<Group>, steps: seq<Step>, s: System)
    requires AllWellFormed(gs) && Run(gs, steps) == Some(s) && s.process.Up?
    ensures Run(gs, steps + [PersistFails]) == Some(s.(process := s.process.(complete := false)))
  {
    hide Run;
    Snoc(gs, steps, PersistFails);
  }

  /** When a failed persist wedges the process: exactly when, with the watch-set as the range left it, an
      op of the range that still gets in comes after a dropped one of its transaction that draws from
      the same queue. */
  lemma FailedPersistWedgesIff(gs: seq<Group>, a: nat, b: nat, k: nat)
    requires AllWellFormed(gs) && a < b
    requires Honest(gs) && k >= |Flatten(gs)| && k >= |gs|
    ensures Cut(gs, a) <= Cut(gs, b)
    ensures var r := Run(gs, FailedPersist(a, b, k));
            && r.Some? && Inv(gs, r.value) && r.value.process.Up?
            && (Wedged(gs, r.value.process) <==> Stuck(gs, Watched(Clean(gs, Cut(gs, b))), Cut(gs, a), Cut(gs, b)))
  {
    hide Honest, Rested, Polled, Flatten, K.Valid, Cut, Stuck, Watched, Clean, Run, Beyond, From, Stands, RowsUpTo, Inv;
    CutGrows(gs, a, b);
    FirstCommit(gs, a, k);
    var three := [BootUp, Poll(a, k, k), Commit];
    var s := Run(gs, three).value;
    PolledRun(gs, three, s, b, k);
    var u := Polled(gs, s.process.m, b, k, k);
    FailedRun(gs, three + [Poll(b, k, k)], s.(process := u));
    assert three + [Poll(b, k, k)] + [PersistFails] == FailedPersist(a, b, k);
    FailedAt(gs, s.db, u.m, a, b);
    RunKeepsForward(gs, a, b, k);
  }

  lemma FailedAt(gs: seq<Group>, db: Db, m: Mem, a: nat, b: nat)
    requires AllWellFormed(gs)
    requires Honest(gs) && Stands(gs, db, m, b, true, |RowsUpTo(gs, Cut(gs, b))|, Cut(gs, b)) && m.feed.lastBlock == a
    ensures From(gs, m) == Cut(gs, a) && Beyond(gs, m, From(gs, m)) == Cut(gs, b)
    ensures Watched(m) == Watched(Clean(gs, Cut(gs, b)))
  {
    hide Honest, AtPoint, DoneBetween, RowsUpTo, Cut, K.Valid, View, Clean, Watched, Beyond;
    HonestParts(gs);
    var n := Cut(gs, b);
    StandsWithin(gs, db, m, b, true, |RowsUpTo(gs, n)|, n);
    BeyondIs(gs, db, m, b, true, |RowsUpTo(gs, n)|, n);
    ViewWatched(m, Clean(gs, n));
  }

  lemma RunKeepsForward(gs: seq<Group>, a: nat, b: nat, k: nat)
    requires AllWellFormed(gs) && a < b
    requires Honest(gs) && k >= |Flatten(gs)| && k >= |gs| && Run(gs, FailedPersist(a, b, k)).Some?
    ensures Inv(gs, Run(gs, FailedPersist(a, b, k)).value)
  {
    hide Honest, Inv, Flatten, Do, Enabled, Rested;
    FirstCommit(gs, a, k);
    var steps := FailedPersist(a, b, k);
    assert steps[..4] == [BootUp, Poll(a, k, k), Commit, Poll(b, k, k)];
    assert steps[..4][..3] == [BootUp, Poll(a, k, k), Commit];
    assert steps[..4][..3][..2] == [BootUp, Poll(a, k, k)];
    assert steps[..4][..3][..2][..1] == [BootUp];
    assert steps[..4][..3][..2][..1][..0] == [];
    assert Run(gs, []) == Some(FRESH);
    SomeBefore(gs, steps, 4);
    SomeBefore(gs, steps[..4], 3);
    SomeBefore(gs, steps[..4][..3], 2);
    SomeBefore(gs, steps[..4][..3][..2], 1);
    assert Forward(gs, []);
    BootedRun(gs);
    assert Forward(gs, [BootUp]);
    assert Forward(gs, [BootUp, Poll(a, k, k)]);
    assert Forward(gs, [BootUp, Poll(a, k, k), Commit]);
    assert Forward(gs, [BootUp, Poll(a, k, k), Commit, Poll(b, k, k)]);
    assert Forward(gs, steps);
    ForwardSettles(gs, steps);
    RunKeeps(gs, steps);
  }

  lemma SomeBefore(gs: seq<Group>, steps: seq<Step>, n: nat)
    requires AllWellFormed(gs) && n + 1 == |steps| && Run(gs, steps).Some?
    ensures Run(gs, steps[..n]).Some?
  {
    hide Enabled, Do;
  }

  // ---- and a chain that has one ------------------------------------------------------

  /** Two modules; in one transaction each deposits through the pool, and then the first is removed. */
  function Trap(a: Address, b: Address, x: Felt, y: Felt, x': Felt, y': Felt): seq<Sent> {
    [Sent(0, 0, Register(a)), Sent(1, 1, Register(b)), Sent(2, 2, Deposit(a, x, y)), Sent(2, 2, Deposit(b, x', y')),
     Sent(3, 3, Remove(a))]
  }

  lemma TrapIsPlayable(a: Address, b: Address, x: Felt, y: Felt, x': Felt, y': Felt)
    requires a != b && a != POOL && b != POOL && x != x' && Pow2(H) >= 4
    ensures var ops := Trap(a, b, x, y, x', y'); Playable(ops) && ToldApart(ops) && Listed(ops) == {b}
  {
    hide Pow2;
    var ops := Trap(a, b, x, y, x', y');
    var o1, o2, o3, o4 := ops[..1], ops[..2], ops[..3], ops[..4];
    assert o1[..0] == [] && o2[..1] == o1 && o3[..2] == o2 && o4[..3] == o3 && ops[..4] == o4;
    assert Listed(o1) == {a} && RowsFor(o1) == [];
    assert Playable(o1);
    assert Listed(o2) == {a, b} && RowsFor(o2) == [];
    assert Playable(o2);
    assert Listed(o3) == {a, b} && RowsFor(o3) == [Single(0, x), Single(1, y)];
    assert Playable(o3);
    assert Listed(o4) == {a, b};
    assert Playable(o4);
  }

  lemma OnlyPrivRecords(m: Mem, g: Group)
    requires K.Valid(m.kem) && WellFormed(g) && !g.PrivGroup?
    ensures GroupEffect(m, g).0.kem.batches.Keys == m.kem.batches.Keys
  {
    hide GroupEffect, K.AcceptChunk, PairsOf, FilledOrNot;
    match g {
      case SpendGroup(_, _, _, _, _, _, _, _, _, _) => SpendShape(m, g);
      case BatchGroup(_, _, _, _, _, _) => BatchShape(m, g);
      case RegistryGroup(_, _, _) => StreamShape(m, g);
      case AcceptGroup(_, _, _, _, _) =>
        StreamShape(m, g);
        SameBatches(m.kem, AcceptOf(g));
    }
  }

  lemma {:induction false} NoBatchesKept(gs: seq<Group>, n: nat)
    requires AllWellFormed(gs) && n <= |gs| && forall i :: 0 <= i < n ==> !gs[i].PrivGroup?
    ensures Clean(gs, n).kem.batches.Keys == {}
  {
    hide GroupEffect, WellFormed, Pass1;
    if n > 0 {
      NoBatchesKept(gs, n - 1);
      OnlyPrivRecords(Inserted(Clean(gs, n - 1), gs[n - 1]), gs[n - 1]);
    }
  }

  lemma WatchedIs(m: Mem, listed: set<Address>)
    requires Lists(m, listed) && m.kem.batches.Keys == {}
    ensures Watched(m) == listed
  {
    forall a
      ensures a in Watched(m) <==> a in listed
    {
      assert R.IsRegistered(m.modules, a) <==> a in listed;
    }
  }

  lemma TrapShape(a: Address, b: Address, x: Felt, y: Felt, x': Felt, y': Felt)
    ensures var gs := ChainFor(Trap(a, b, x, y, x', y'));
            && |gs| == 5 && (forall i :: 0 <= i < 5 ==> !gs[i].PrivGroup?)
            && gs[2].SpendGroup? && gs[3].SpendGroup? && gs[2].emitter == a && gs[3].emitter == b
            && gs[2].h.txHash == gs[3].h.txHash
            && Cut(gs, 1) == 2 && Cut(gs, 3) == 5
  {
    hide Root, RowsFor;
    var ops := Trap(a, b, x, y, x', y');
    var gs := ChainFor(ops);
    ChainForShape(ops);
    assert gs[0].h.blockNumber == 0 && gs[1].h.blockNumber == 1 && gs[2].h.blockNumber == 2 && gs[3].h.blockNumber == 2
        && gs[4].h.blockNumber == 3;
    CutUnrolls(gs);
  }

  lemma CutUnrolls(gs: seq<Group>)
    requires |gs| == 5
    requires gs[0].h.blockNumber == 0 && gs[1].h.blockNumber == 1 && gs[2].h.blockNumber == 2
    requires gs[3].h.blockNumber == 2
    requires gs[4].h.blockNumber == 3
    ensures Cut(gs, 1) == 2 && Cut(gs, 3) == 5
  {
    var g1, g2, g3, g4 := gs[1..], gs[1..][1..], gs[1..][1..][1..], gs[1..][1..][1..][1..];
    assert Cut(g2, 1) == 0;
    assert Cut(g1, 1) == 1;
    assert Cut(g4[1..], 3) == 0;
    assert Cut(g4, 3) == 1;
    assert Cut(g3, 3) == 2;
    assert Cut(g2, 3) == 3;
    assert Cut(g1, 3) == 4;
  }

  /** The input: the range that removes the first module polled, its persist failed. */
  lemma RemovedModuleWedges(a: Address, b: Address, x: Felt, y: Felt, x': Felt, y': Felt, k: nat)
    requires a != b && a != POOL && b != POOL && x != x' && Pow2(H) >= 4
    requires k >= |Flatten(ChainFor(Trap(a, b, x, y, x', y')))| && k >= 5
    ensures var gs := ChainFor(Trap(a, b, x, y, x', y'));
            var r := Run(gs, FailedPersist(1, 3, k));
            Honest(gs) && r.Some? && Inv(gs, r.value) && r.value.process.Up? && Wedged(gs, r.value.process)
  {
    hide Root, ChainFor, WellFormed, Flatten, Pow2, Clean, Run, Wedged, Watched, Honest, Inv, Lists, ChainOk,
      AllEntitled, RowsFor;
    var ops := Trap(a, b, x, y, x', y');
    var gs := ChainFor(ops);
    TrapIsPlayable(a, b, x, y, x', y');
    TrapShape(a, b, x, y, x', y');
    AnyOpsAreAChain(ops);
    ToldApartIsHonest(ops);
    FailedPersistWedgesIff(gs, 1, 3, k);
    NoBatchesKept(gs, 5);
    WatchedIs(Clean(gs, 5), Listed(ops));
    TrapIsStuck(gs, Watched(Clean(gs, 5)));
  }

  lemma TrapIsStuck(gs: seq<Group>, w: set<Address>)
    requires AllWellFormed(gs) && |gs| == 5 && gs[2].SpendGroup? && gs[3].SpendGroup?
    requires gs[2].h.txHash == gs[3].h.txHash
    requires gs[2].emitter != POOL && gs[2].emitter !in w && gs[3].emitter in w
    ensures Stuck(gs, w, 2, 5)
  {
    hide WellFormed;
    EmptyRange(gs, 2);
    assert EmitterOf(gs[2]) == gs[2].emitter && EmitterOf(gs[3]) == gs[3].emitter;
    assert !GetsIn(gs, w, 2, 2) && GetsIn(gs, w, 2, 3);
    assert Contend(gs[2], gs[3]);
    assert Blocked(gs, w, 2, 3);
  }
}
