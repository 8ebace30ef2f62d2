/** ingest.ts ingest/persist/bootPostgres and persist.ts as a step machine: polls cut anywhere, flushes
    that fail, land, or land unreported, crashes and reboots. */
module Crash {
  import opened Field
  import opened Merkle
  import opened Imt
  import opened Chain
  import opened Ingest
  import opened Correlation
  import opened Effects
  import opened Replay
  import opened Views
  import opened Durable
  import opened Runs
  import opened Watch
  import opened Machine
  import opened Gated
  import opened Poll
  import opened Stale
  import opened Boot
  import opened Reboot
  import F = Feed
  import FL = LedgerTables
  import K = Kem
  import KT = KemTables
  import M = Mirror

  // ---- blocks ------------------------------------------------------------------------

  /** How many groups lie in blocks up to `block`. */
  function Cut(gs: seq<Group>, block: int): (n: nat)
    ensures n <= |gs|
    decreases |gs|
  {
    if gs == [] || gs[0].h.blockNumber > block then 0 else 1 + Cut(gs[1..], block)
  }

  lemma {:induction false} CutGrows(gs: seq<Group>, a: int, b: int)
    requires a <= b
    ensures Cut(gs, a) <= Cut(gs, b)
    decreases |gs|
  {
    if gs != [] {
      CutGrows(gs[1..], a, b);
    }
  }

  // ---- the machine -------------------------------------------------------------------

  /** A live process: its read model (the in-memory cursor is feed.lastBlock), the head it last polled
      to, and whether that poll went through and matched the contract, so that persist may run. */
  datatype Process = Down | Up(m: Mem, head: int, complete: bool)

  datatype System = System(db: Db, process: Process)

  datatype Step =
    | Poll(head: nat, k: nat, q: nat)
    | PersistFails
    | Commit
    | CommitUnreported
    | CrashNow
    | BootUp

  /** The first group past the in-memory cursor. */
  function From(gs: seq<Group>, m: Mem): nat {
    Cut(gs, m.feed.lastBlock)
  }

  /** The head check: root and next leaf index are the contract's at that block. */
  ghost predicate HeadMatches(gs: seq<Group>, m: Mem, n: nat)
    requires AllWellFormed(gs) && n <= |gs|
  {
    Root(m.tree.rows) == Root(RowsUpTo(gs, n)) && NextOf(m.tree.rows) == NextOf(RowsUpTo(gs, n))
  }

  /** A poll scans from the in-memory cursor to any later head, old or new, and may be cut anywhere;
      persist runs only after a poll that went through and passed the head check. */
  ghost predicate Enabled(gs: seq<Group>, s: System, step: Step)
    requires AllWellFormed(gs)
  {
    match step
    case Poll(head, k, q) => s.process.Up? && K.Valid(s.process.m.kem) && s.process.m.feed.lastBlock < head
    case PersistFails => s.process.Up?
    case Commit => s.process.Up? && s.process.complete
    case CommitUnreported => s.process.Up? && s.process.complete
    case CrashNow => s.process.Up?
    case BootUp => s.process.Down?
  }

  /** ingest up to the persist: applyLogs over the range through the gate, then the head check. */
  ghost function Polled(gs: seq<Group>, m: Mem, head: int, k: nat, q: nat): Process
    requires AllWellFormed(gs) && K.Valid(m.kem) && m.feed.lastBlock < head
  {
    CutGrows(gs, m.feed.lastBlock, head);
    var (m', through) := Attempt(m, gs, From(gs, m), Cut(gs, head), k, q);
    Up(m', head, through && HeadMatches(gs, m', Cut(gs, head)))
  }

  ghost function Do(gs: seq<Group>, s: System, step: Step): System
    requires AllWellFormed(gs) && Enabled(gs, s, step)
  {
    match step
    case Poll(head, k, q) => s.(process := Polled(gs, s.process.m, head, k, q))
    case PersistFails => s.(process := s.process.(complete := false))
    case Commit =>
      System(Stage(s.db, s.process.m, s.process.head), Up(Flushed(s.process.m, s.process.head), s.process.head, false))
    case CommitUnreported => System(Stage(s.db, s.process.m, s.process.head), s.process.(complete := false))
    case CrashNow => s.(process := Down)
    case BootUp => s.(process := Up(Booted(s.db), s.db.feed.cursor, false))
  }

  const FRESH := System(NO_ROWS, Down)

  // ---- the invariant -----------------------------------------------------------------

  /** A live process: every group from its cursor up to `d` is handled, and none past it. */
  ghost predicate Stands(gs: seq<Group>, db: Db, m: Mem, head: int, complete: bool, p: nat, d: nat)
    requires AllWellFormed(gs)
  {
    && K.Valid(m.kem) && m.feed.lastBlock <= head
    && AtPoint(db, m, gs, p, d)
    && From(gs, m) <= d && DoneBetween(m, gs, From(gs, m), d)
    && (complete ==> m.feed.lastBlock < head && Cut(gs, head) <= d && p == |RowsUpTo(gs, Cut(gs, head))|)
  }

  ghost predicate DurableIsClean(gs: seq<Group>, db: Db)
    requires AllWellFormed(gs)
  {
    db == Dump(Clean(gs, Cut(gs, db.feed.cursor)), db.feed.cursor)
  }

  ghost predicate Inv(gs: seq<Group>, s: System)
    requires AllWellFormed(gs)
  {
    && DurableIsClean(gs, s.db)
    && (s.process.Up? ==> exists p, d :: Stands(gs, s.db, s.process.m, s.process.head, s.process.complete, p, d))
  }

  // ---- what a process has handled ----------------------------------------------------

  /** The first group from `i` on that the process has not handled. */
  ghost function Beyond(gs: seq<Group>, m: Mem, i: nat): nat
    requires AllWellFormed(gs)
    decreases |gs| - i
  {
    if i < |gs| && Done(m, gs[i]) then Beyond(gs, m, i + 1) else i
  }

  lemma NextIsNotDone(gs: seq<Group>, db: Db, m: Mem, p: nat, d: nat)
    requires AllWellFormed(gs) && d < |gs|
    requires ChainOk(gs) && AtPoint(db, m, gs, p, d)
    ensures !Done(m, gs[d])
  {
    hide WellFormed, GroupKey, Clean, LeavesIn, Synced, RowsUpTo, Truthful, GroupOk;
    CleanFeeds(gs, d);
    SameFeedKeys(m, Clean(gs, d));
    var g := gs[d];
    if Done(m, g) {
      var j :| 0 <= j < d && GroupKey(gs[j]) == GroupKey(g);
      assert false;
    }
  }

  lemma SameFeedKeys(a: Mem, b: Mem)
    requires View(a) == View(b)
    ensures a.feed.seen == b.feed.seen
  {
  }

  lemma {:induction false} BeyondFrom(gs: seq<Group>, m: Mem, i: nat, d: nat)
    requires AllWellFormed(gs) && i <= d <= |gs| && DoneBetween(m, gs, i, d) && (d < |gs| ==> !Done(m, gs[d]))
    ensures Beyond(gs, m, i) == d
    decreases d - i
  {
    hide WellFormed, Done;
    if i < d {
      BeyondFrom(gs, m, i + 1, d);
    }
  }

  lemma BeyondIs(gs: seq<Group>, db: Db, m: Mem, head: int, complete: bool, p: nat, d: nat)
    requires AllWellFormed(gs)
    requires ChainOk(gs) && Stands(gs, db, m, head, complete, p, d)
    ensures Beyond(gs, m, From(gs, m)) == d
  {
    hide WellFormed, AtPoint, Done, From, ChainOk;
    StandsWithin(gs, db, m, head, complete, p, d);
    if d < |gs| {
      NextIsNotDone(gs, db, m, p, d);
    }
    BeyondFrom(gs, m, From(gs, m), d);
  }

  lemma StandsWithin(gs: seq<Group>, db: Db, m: Mem, head: int, complete: bool, p: nat, d: nat)
    requires AllWellFormed(gs) && Stands(gs, db, m, head, complete, p, d)
    ensures d <= |gs| && p <= |RowsUpTo(gs, |gs|)| && m.tree.rows == RowsUpTo(gs, |gs|)[..p] && |RowsUpTo(gs, d)| <= p
    ensures K.Valid(m.kem) && View(m) == View(Clean(gs, d)) && SeenWithin(m, gs, d) && Synced(db, m)
  {
    hide WellFormed, View, Clean, SeenWithin, Synced, RowsUpTo;
  }

  /** What would be committed now leaves the rows of every group handled past the head as they were. */
  ghost predicate Settles(gs: seq<Group>, p: Process)
    requires AllWellFormed(gs) && p.Up?
  {
    var h, d := Cut(gs, p.head), Beyond(gs, p.m, From(gs, p.m));
    h <= d <= |gs| && Settled(gs, h, d)
  }

  // ---- polls -------------------------------------------------------------------------

  lemma HeadTells(gs: seq<Group>, db: Db, m: Mem, p: nat, d: nat, n: nat)
    requires AllWellFormed(gs) && n <= |gs|
    requires ChainOk(gs) && AtPoint(db, m, gs, p, d)
    ensures p <= |RowsUpTo(gs, |gs|)| && |RowsUpTo(gs, d)| <= p
    ensures HeadMatches(gs, m, n) <==> p == |RowsUpTo(gs, n)|
    ensures NextOf(m.tree.rows) <= NextOf(RowsUpTo(gs, n)) <==> p <= |RowsUpTo(gs, n)|
  {
    hide WellFormed, View, Clean, SeenWithin, Synced, RowsUpTo, Truthful, GroupOk, NextOf, Root;
    ParamsOk(gs);
    FrontierTells(gs, p, n);
    RowsArePrefix(gs, n, |gs|);
  }

  lemma PollCutEarly(gs: seq<Group>, db: Db, m: Mem, p: nat, d: nat, head: int, k: nat, q: nat)
    requires AllWellFormed(gs)
    requires Honest(gs) && Stands(gs, db, m, head, false, p, d) && m.feed.lastBlock < head
    requires From(gs, m) <= Cut(gs, head) && k < |Kept(gs, Watched(m), From(gs, m), Cut(gs, head))|
    ensures var u := Polled(gs, m, head, k, q);
            && !u.complete
            && Stands(gs, db, u.m, head, false, Max(p, Reached(gs, Watched(m), From(gs, m), Cut(gs, head), k)), d)
  {
    hide Honest, AtPoint, DoneBetween, Kept, Attempt, RowsUpTo, Reached, Cut, Watched, HeadMatches, Pass1, View, Clean,
      SeenWithin, Synced, WellFormed, K.Valid;
    StandsWithin(gs, db, m, head, false, p, d);
    CutInPass1(db, m, gs, p, From(gs, m), Cut(gs, head), k, q, d);
  }

  lemma PollPastPass1(gs: seq<Group>, db: Db, m: Mem, p: nat, d: nat, head: int, k: nat, q: nat) returns (d': nat)
    requires AllWellFormed(gs)
    requires Honest(gs) && Stands(gs, db, m, head, false, p, d) && m.feed.lastBlock < head
    requires From(gs, m) <= Cut(gs, head) && k >= |Kept(gs, Watched(m), From(gs, m), Cut(gs, head))|
    ensures var u := Polled(gs, m, head, k, q);
            Stands(gs, db, u.m, head, u.complete, Max(p, |RowsUpTo(gs, Cut(gs, head))|), d')
    ensures d <= d' <= Max(d, Cut(gs, head))
  {
    hide Honest, AtPoint, DoneBetween, Kept, Attempt, RowsUpTo, Cut, Watched, HeadMatches, NobodyBlocked, RunOn, Grown1,
      View, Clean, SeenWithin, Synced, WellFormed, K.Valid, NextOf;
    var c, n := From(gs, m), Cut(gs, head);
    HonestParts(gs);
    StandsWithin(gs, db, m, head, false, p, d);
    d' := CutInPass2(db, m, gs, p, c, n, k, q, d);
    HeadTells(gs, db, Attempt(m, gs, c, n, k, q).0, Max(p, |RowsUpTo(gs, n)|), d', n);
  }

  lemma PollStands(gs: seq<Group>, db: Db, m: Mem, was: int, complete: bool, p: nat, d: nat, head: int, k: nat, q: nat)
    returns (p': nat, d': nat)
    requires AllWellFormed(gs)
    requires Honest(gs) && Stands(gs, db, m, was, complete, p, d) && m.feed.lastBlock < head
    ensures var u := Polled(gs, m, head, k, q); Stands(gs, db, u.m, head, u.complete, p', d')
    ensures d <= d' <= Max(d, Cut(gs, head))
  {
    hide Honest, AtPoint, DoneBetween, Kept, Polled, RowsUpTo, Reached, Cut, Watched;
    var c, n := From(gs, m), Cut(gs, head);
    CutGrows(gs, m.feed.lastBlock, head);
    if k < |Kept(gs, Watched(m), c, n)| {
      PollCutEarly(gs, db, m, p, d, head, k, q);
      p', d' := Max(p, Reached(gs, Watched(m), c, n, k)), d;
    } else {
      d' := PollPastPass1(gs, db, m, p, d, head, k, q);
      p' := Max(p, |RowsUpTo(gs, n)|);
    }
  }

  /** When a poll that nobody cuts may persist: no op it lets in is blocked by one its gate drops, and
      the mirror is not already past the head. */
  lemma PollCompletesIff(gs: seq<Group>, s: System, head: int, k: nat, q: nat)
    requires AllWellFormed(gs)
    requires Honest(gs) && Inv(gs, s) && s.process.Up? && K.Valid(s.process.m.kem) && s.process.m.feed.lastBlock < head
    requires From(gs, s.process.m) <= Cut(gs, head)
    requires var c, n := From(gs, s.process.m), Cut(gs, head);
             k >= |Gate(Watched(s.process.m), Range(gs, c, n))| && q >= n - c
    ensures var m, c, n := s.process.m, From(gs, s.process.m), Cut(gs, head);
            Polled(gs, m, head, k, q).complete
            <==> NobodyBlocked(gs, Watched(m), c, n) && NextOf(m.tree.rows) <= NextOf(RowsUpTo(gs, n))
  {
    hide Honest, AtPoint, DoneBetween, Attempt, RowsUpTo, Reached, Cut, Watched, HeadMatches, NobodyBlocked,
      DurableIsClean, NextOf, Gate, Range;
    var m := s.process.m;
    var c, n := From(gs, m), Cut(gs, head);
    HonestParts(gs);
    var p, d :| Stands(gs, s.db, m, s.process.head, s.process.complete, p, d);
    StandsWithin(gs, s.db, m, s.process.head, s.process.complete, p, d);
    var d' := CutInPass2(s.db, m, gs, p, c, n, k, q, d);
    HeadTells(gs, s.db, m, p, d, n);
    HeadTells(gs, s.db, Attempt(m, gs, c, n, k, q).0, Max(p, |RowsUpTo(gs, n)|), d', n);
  }

  // ---- commits -----------------------------------------------------------------------

  /** The read model dumps to the rows of the clean run after the groups it has handled. */
  lemma DumpIsClean(gs: seq<Group>, db: Db, m: Mem, n: nat, block: int)
    requires AllWellFormed(gs) && n <= |gs| && K.Valid(m.kem)
    requires ChainOk(gs) && AtPoint(db, m, gs, |RowsUpTo(gs, n)|, n)
    ensures Dump(m, block) == Dump(Clean(gs, n), block)
  {
    hide ChainOk, RowsUpTo, Clean, Synced, View, SeenWithin, WellFormed, Dump;
    CleanIsSynced(gs, n);
    RowsArePrefix(gs, n, |gs|);
    SyncedTree(db, m);
    SyncedTree(NO_ROWS, Clean(gs, n));
    CoherentOf(db.leaves, m.tree);
    CoherentOf(NO_ROWS.leaves, Clean(gs, n).tree);
    SameDump(m, Clean(gs, n), block);
  }

  lemma SameDump(a: Mem, b: Mem, block: int)
    requires K.Valid(a.kem) && K.Valid(b.kem)
    requires View(a) == View(b) && a.tree.rows == b.tree.rows && a.tree.batchRoots == b.tree.batchRoots
    ensures Dump(a, block) == Dump(b, block)
  {
    SameLeafTable(a.tree, b.tree);
    DumpOfBatches(a.kem, b.kem);
  }

  lemma SameLeafTable(a: M.State, b: M.State)
    requires a == b.(pending := a.pending)
    ensures M.LeafTable(a) == M.LeafTable(b)
  {
  }

  /** Past the head only leafless groups have been handled. */
  lemma CompleteIsLeafless(gs: seq<Group>, db: Db, m: Mem, head: int, p: nat, d: nat)
    requires AllWellFormed(gs)
    requires ChainOk(gs) && Stands(gs, db, m, head, true, p, d)
    ensures d <= |gs| && Cut(gs, head) <= d && p == |RowsUpTo(gs, d)| && Leafless(gs, Cut(gs, head), d)
  {
    hide ChainOk, RowsUpTo, WellFormed, Cut, Leafless;
    StandsWithin(gs, db, m, head, true, p, d);
    NoRowsNoLeaves(gs, Cut(gs, head), d);
  }

  /** What a commit leaves in the tables, and in the process, reported or not. */
  lemma CommitLands(gs: seq<Group>, db: Db, m: Mem, head: int, p: nat, d: nat)
    requires AllWellFormed(gs)
    requires ChainOk(gs) && Stands(gs, db, m, head, true, p, d)
    ensures d <= |gs| && Stage(db, m, head) == Dump(Clean(gs, d), head) && Stage(db, m, head).feed.cursor == head
    ensures Stands(gs, Stage(db, m, head), Flushed(m, head), head, false, p, d)
    ensures Stands(gs, Stage(db, m, head), m, head, false, p, d)
  {
    hide ChainOk, RowsUpTo, Clean, WellFormed, Synced, Dump, Stage, View, SeenWithin, Cut, Leafless, Done;
    CompleteIsLeafless(gs, db, m, head, p, d);
    SyncedOf(gs, db, m, p, d);
    FlushLands(db, m, head);
    DumpIsClean(gs, db, m, d, head);
    DumpCursor(m, head);
    UnreportedCommit(db, m, head);
    FlushedIsSynced(db, m, head);
    FlushedShape(m, head, gs, d);
    CutGrows(gs, m.feed.lastBlock, head);
    FlushedStillDone(m, head, gs, From(gs, m), d);
  }

  lemma FlushedStillDone(m: Mem, head: int, gs: seq<Group>, c: nat, d: nat)
    requires AllWellFormed(gs) && d <= |gs| && DoneBetween(m, gs, c, d)
    ensures DoneBetween(Flushed(m, head), gs, c, d)
  {
    hide WellFormed, GroupKey;
    forall j | c <= j < d
      ensures Done(Flushed(m, head), gs[j])
    {
      assert Done(m, gs[j]);
    }
  }

  /** A commit leaves the rows of the run that never failed, at the head it claims, exactly when the
      groups handled past that head settle. */
  lemma CommitIsCleanIff(gs: seq<Group>, s: System)
    requires AllWellFormed(gs)
    requires ChainOk(gs) && Inv(gs, s) && s.process.Up? && s.process.complete
    ensures DurableIsClean(gs, Stage(s.db, s.process.m, s.process.head)) <==> Settles(gs, s.process)
  {
    hide ChainOk, RowsUpTo, Clean, WellFormed, Dump, Stage, Cut, Leafless, From, Settled, AtPoint, DoneBetween;
    var p, d :| Stands(gs, s.db, s.process.m, s.process.head, true, p, d);
    CommitLands(gs, s.db, s.process.m, s.process.head, p, d);
    CompleteIsLeafless(gs, s.db, s.process.m, s.process.head, p, d);
    BeyondIs(gs, s.db, s.process.m, s.process.head, true, p, d);
    DumpMoves(gs, Cut(gs, s.process.head), d, s.process.head);
  }

  lemma SyncedOf(gs: seq<Group>, db: Db, m: Mem, p: nat, d: nat)
    requires AllWellFormed(gs) && AtPoint(db, m, gs, p, d)
    ensures Synced(db, m)
  {
  }

  lemma DumpCursor(m: Mem, head: int)
    requires K.Valid(m.kem)
    ensures Dump(m, head).feed.cursor == head
  {
  }

  lemma FlushedShape(m: Mem, head: int, gs: seq<Group>, d: nat)
    requires K.Valid(m.kem) && AllWellFormed(gs) && d <= |gs| && SeenWithin(m, gs, d)
    ensures var f := Flushed(m, head);
            && View(f) == View(m) && f.tree.rows == m.tree.rows && K.Valid(f.kem) && f.feed.lastBlock == head
            && SeenWithin(f, gs, d)
  {
  }

  lemma BootStands(gs: seq<Group>, db: Db)
    requires AllWellFormed(gs)
    requires ChainOk(gs) && DurableIsClean(gs, db)
    ensures Stands(gs, db, Booted(db), db.feed.cursor, false, |RowsUpTo(gs, Cut(gs, db.feed.cursor))|,
                   Cut(gs, db.feed.cursor))
  {
    hide ChainOk, AtPoint, RowsUpTo, Clean, Booted, Done, Dump, Cut;
    BootLands(gs, Cut(gs, db.feed.cursor), db.feed.cursor);
  }

  /** The check at the end of bootPostgres never fires. */
  lemma BootCheckPasses(gs: seq<Group>, db: Db)
    requires AllWellFormed(gs)
    requires ChainOk(gs) && DurableIsClean(gs, db)
    ensures HeadMatches(gs, Booted(db), Cut(gs, db.feed.cursor))
  {
    hide ChainOk, RowsUpTo, Clean, Booted, Dump, Cut, AtPoint, HeadMatches;
    var n := Cut(gs, db.feed.cursor);
    BootLands(gs, n, db.feed.cursor);
    HeadTells(gs, db, Booted(db), |RowsUpTo(gs, n)|, n, n);
  }

  // ---- each step ---------------------------------------------------------------------

  predicate Commits(step: Step) {
    step.Commit? || step.CommitUnreported?
  }

  /** Every step keeps the durable rows equal to the clean run's at the durable cursor, provided a
      commit at an old head settles. */
  lemma StepKeeps(gs: seq<Group>, s: System, step: Step)
    requires AllWellFormed(gs)
    requires Honest(gs) && Inv(gs, s) && Enabled(gs, s, step) && (Commits(step) ==> Settles(gs, s.process))
    ensures Inv(gs, Do(gs, s, step))
  {
    hide Honest, Stands, DurableIsClean, Polled, Stage, Flushed, Booted, Settles;
    HonestParts(gs);
    match step {
      case Poll(head, k, q) =>
        var p, d :| Stands(gs, s.db, s.process.m, s.process.head, s.process.complete, p, d);
        var p', d' := PollStands(gs, s.db, s.process.m, s.process.head, s.process.complete, p, d, head, k, q);
        PolledShape(gs, s.process.m, head, k, q);
      case PersistFails =>
        var p, d :| Stands(gs, s.db, s.process.m, s.process.head, s.process.complete, p, d);
        StillStands(gs, s.db, s.process.m, s.process.head, s.process.complete, p, d);
      case Commit =>
        var p, d :| Stands(gs, s.db, s.process.m, s.process.head, true, p, d);
        CommitLands(gs, s.db, s.process.m, s.process.head, p, d);
        CommitIsCleanIff(gs, s);
      case CommitUnreported =>
        var p, d :| Stands(gs, s.db, s.process.m, s.process.head, true, p, d);
        CommitLands(gs, s.db, s.process.m, s.process.head, p, d);
        CommitIsCleanIff(gs, s);
      case CrashNow =>
      case BootUp => BootStands(gs, s.db);
    }
  }

  lemma PolledShape(gs: seq<Group>, m: Mem, head: int, k: nat, q: nat)
    requires AllWellFormed(gs) && K.Valid(m.kem) && m.feed.lastBlock < head
    ensures Polled(gs, m, head, k, q).Up? && Polled(gs, m, head, k, q).head == head
  {
    hide Attempt, HeadMatches;
  }

  lemma StillStands(gs: seq<Group>, db: Db, m: Mem, head: int, complete: bool, p: nat, d: nat)
    requires AllWellFormed(gs) && Stands(gs, db, m, head, complete, p, d)
    ensures Stands(gs, db, m, head, false, p, d)
  {
    hide AtPoint, DoneBetween, From, Cut;
  }

  // ---- whole runs --------------------------------------------------------------------

  /** The system after `steps`; None when some step could not be taken. */
  ghost function RunFrom(gs: seq<Group>, s: System, steps: seq<Step>): Option<System>
    requires AllWellFormed(gs)
  {
    if steps == [] then Some(s)
    else
      var r, last := RunFrom(gs, s, steps[..|steps| - 1]), steps[|steps| - 1];
      if r.Some? && Enabled(gs, r.value, last) then Some(Do(gs, r.value, last)) else None
  }

  /** From an empty database. */
  ghost function Run(gs: seq<Group>, steps: seq<Step>): Option<System>
    requires AllWellFormed(gs)
  {
    RunFrom(gs, FRESH, steps)
  }

  /** Every commit of the run settles. */
  ghost predicate AllSettle(gs: seq<Group>, steps: seq<Step>)
    requires AllWellFormed(gs)
    decreases |steps|
  {
    steps == [] ||
    var r, last := Run(gs, steps[..|steps| - 1]), steps[|steps| - 1];
    && AllSettle(gs, steps[..|steps| - 1])
    && (r.Some? && Enabled(gs, r.value, last) && Commits(last) ==> Settles(gs, r.value.process))
  }

  lemma FreshIsClean(gs: seq<Group>)
    requires AllWellFormed(gs)
    ensures Inv(gs, FRESH)
  {
    hide M.LeafTable, KT.Dump, FL.Dump, F.Dump;
    NothingIsSynced();
    NothingBefore(gs);
    FlushLands(NO_ROWS, Ingest.EMPTY, -1);
    NothingStaged();
  }

  lemma NothingStaged()
    ensures Stage(NO_ROWS, Ingest.EMPTY, -1) == NO_ROWS
  {
  }

  lemma NothingBefore(gs: seq<Group>)
    requires AllWellFormed(gs)
    ensures Cut(gs, -1) == 0 && Clean(gs, 0) == Ingest.EMPTY
  {
  }

  lemma {:induction false} RunKeeps(gs: seq<Group>, steps: seq<Step>)
    requires AllWellFormed(gs)
    requires Honest(gs) && Run(gs, steps).Some? && AllSettle(gs, steps)
    ensures Inv(gs, Run(gs, steps).value)
  {
    hide Honest, Inv, Enabled, Do, Settles, Commits;
    if steps == [] {
      FreshIsClean(gs);
    } else {
      RunKeeps(gs, steps[..|steps| - 1]);
      StepKeeps(gs, Run(gs, steps[..|steps| - 1]).value, steps[|steps| - 1]);
    }
  }

  /** Crash safety. Whatever was cut, thrown, dropped by the gate, rolled back, committed unreported,
      crashed or rebooted on the way, the durable rows are those of the run that never failed, up to
      the durable cursor. */
  lemma DurableRowsAreTheCleanPrefix(gs: seq<Group>, steps: seq<Step>)
    requires AllWellFormed(gs)
    requires Honest(gs) && Run(gs, steps).Some? && AllSettle(gs, steps)
    ensures var db := Run(gs, steps).value.db; db == Dump(Clean(gs, Cut(gs, db.feed.cursor)), db.feed.cursor)
  {
    hide Honest, Run, Dump, Clean, AllSettle;
    RunKeeps(gs, steps);
  }

  /** The rows were the clean run's after every step so far. */
  ghost predicate AllClean(gs: seq<Group>, steps: seq<Step>)
    requires AllWellFormed(gs) && Run(gs, steps).Some?
    decreases |steps|
  {
    && DurableIsClean(gs, Run(gs, steps).value.db)
    && (steps != [] ==> AllClean(gs, steps[..|steps| - 1]))
  }

  /** And that is exactly when: over a whole run the rows are the clean run's at every step if and only
      if every commit settles. */
  lemma {:induction false} RowsStayCleanIff(gs: seq<Group>, steps: seq<Step>)
    requires AllWellFormed(gs)
    requires Honest(gs) && Run(gs, steps).Some?
    ensures AllClean(gs, steps) <==> AllSettle(gs, steps)
  {
    hide Honest, DurableIsClean, Settles, Enabled, Do;
    if steps == [] {
      FreshIsClean(gs);
      CleanNow(gs, FRESH);
    } else {
      var init, last := steps[..|steps| - 1], steps[|steps| - 1];
      RowsStayCleanIff(gs, init);
      if AllSettle(gs, init) {
        var s := Run(gs, init).value;
        RunKeeps(gs, init);
        CleanNow(gs, s);
        StepIsCleanIff(gs, s, last);
      }
    }
  }

  lemma CleanNow(gs: seq<Group>, s: System)
    requires AllWellFormed(gs) && Inv(gs, s)
    ensures DurableIsClean(gs, s.db)
  {
  }

  lemma StepIsCleanIff(gs: seq<Group>, s: System, step: Step)
    requires AllWellFormed(gs)
    requires Honest(gs) && Inv(gs, s) && Enabled(gs, s, step)
    ensures DurableIsClean(gs, Do(gs, s, step).db) <==> (Commits(step) ==> Settles(gs, s.process))
  {
    hide Honest, DurableIsClean, Settles, Polled, Stage, Flushed, Booted, Stands;
    HonestParts(gs);
    CleanNow(gs, s);
    if Commits(step) {
      CommitIsCleanIff(gs, s);
    }
  }

  // ---- resuming ----------------------------------------------------------------------

  /** Resume. After any such run, a poll that goes through leaves the frontier where the run that never
      failed has it at that head, and everything served where it stands after the groups handled: those
      up to the head, and past it, if the head was an old one, none that inserted anything. */
  lemma ResumedRunIsTheCleanRun(gs: seq<Group>, steps: seq<Step>)
    requires AllWellFormed(gs)
    requires Honest(gs) && Run(gs, steps).Some? && AllSettle(gs, steps)
    requires Run(gs, steps).value.process.Up? && Run(gs, steps).value.process.complete
    ensures var u := Run(gs, steps).value.process;
            var h, d := Cut(gs, u.head), Beyond(gs, u.m, From(gs, u.m));
            && h <= d <= |gs| && Leafless(gs, h, d)
            && u.m.tree.rows == RowsUpTo(gs, h) && u.m.tree.rows == Clean(gs, d).tree.rows
            && u.m.tree.batchRoots == Clean(gs, d).tree.batchRoots && View(u.m) == View(Clean(gs, d))
  {
    hide Honest, Run, Clean, Synced, View, SeenWithin, RowsUpTo, WellFormed, DoneBetween, Cut, Beyond, From, AllSettle,
      Leafless;
    HonestParts(gs);
    RunKeeps(gs, steps);
    var s := Run(gs, steps).value;
    var u := s.process;
    var p, d :| Stands(gs, s.db, u.m, u.head, u.complete, p, d);
    BeyondIs(gs, s.db, u.m, u.head, true, p, d);
    CompleteIsLeafless(gs, s.db, u.m, u.head, p, d);
    StandsWithin(gs, s.db, u.m, u.head, true, p, d);
    CleanIsSynced(gs, d);
    RowsArePrefix(gs, d, |gs|);
    RowsArePrefix(gs, Cut(gs, u.head), |gs|);
    SyncedTree(s.db, u.m);
    SyncedTree(NO_ROWS, Clean(gs, d));
    CoherentOf(s.db.leaves, u.m.tree);
    CoherentOf(NO_ROWS.leaves, Clean(gs, d).tree);
  }

  /** After any such run, every path served into a block that is not opaque folds to exactly the
      contract root at that head. */
  lemma ServedPathsFoldAfterAnyRun(gs: seq<Group>, steps: seq<Step>, leafIndex: nat)
    requires AllWellFormed(gs)
    requires Honest(gs) && Run(gs, steps).Some? && AllSettle(gs, steps)
    requires Run(gs, steps).value.process.Up? && Run(gs, steps).value.process.complete
    requires leafIndex < Pow2(H) && Block(leafIndex) !in M.Opaque(Run(gs, steps).value.process.m.tree)
    ensures var u := Run(gs, steps).value.process;
            Root(RowsUpTo(gs, Cut(gs, u.head)))
            == FoldToRoot(LeafAt(u.m.tree.leaves, leafIndex), M.SiblingsOf(u.m.tree, leafIndex), leafIndex, H)
  {
    hide Honest, Run, Clean, View, Cut, M.Coherent, M.AllRecorded, Root, FoldToRoot, M.SiblingsOf, AllSettle, Leafless,
      RowsUpTo;
    var u := Run(gs, steps).value.process;
    HonestParts(gs);
    ResumedRunIsTheCleanRun(gs, steps);
    var d := Beyond(gs, u.m, From(gs, u.m));
    ProcessIsCoherent(gs, steps);
    AllAreRecorded(gs, d);
    RecordedToo(u.m, Clean(gs, d));
    M.ServedPathFolds(u.m.tree, leafIndex);
  }

  lemma ProcessIsCoherent(gs: seq<Group>, steps: seq<Step>)
    requires AllWellFormed(gs)
    requires Honest(gs) && Run(gs, steps).Some? && AllSettle(gs, steps) && Run(gs, steps).value.process.Up?
    ensures M.Coherent(Run(gs, steps).value.process.m.tree)
  {
    hide Honest, Run, M.Coherent, DoneBetween, Cut, RowsUpTo, View, SeenWithin, AllSettle;
    RunKeeps(gs, steps);
    var s := Run(gs, steps).value;
    var p, d :| Stands(gs, s.db, s.process.m, s.process.head, s.process.complete, p, d);
    SyncedParts(s.db, s.process.m);
  }

  lemma RecordedToo(a: Mem, b: Mem)
    requires View(a) == View(b) && a.tree.rows == b.tree.rows && M.AllRecorded(b.tree)
    ensures M.AllRecorded(a.tree)
  {
  }

  // ---- heads that go forward, and heads that go back ---------------------------------

  /** Within a process the heads never go back. */
  ghost predicate Forward(gs: seq<Group>, steps: seq<Step>)
    requires AllWellFormed(gs)
    decreases |steps|
  {
    steps == [] ||
    var r, last := Run(gs, steps[..|steps| - 1]), steps[|steps| - 1];
    && Forward(gs, steps[..|steps| - 1])
    && (last.Poll? && r.Some? && r.value.process.Up? ==> r.value.process.head <= last.head)
  }

  /** No process has handled anything past its head. */
  ghost predicate WithinHead(gs: seq<Group>, p: Process)
    requires AllWellFormed(gs)
  {
    p.Up? ==> Beyond(gs, p.m, From(gs, p.m)) <= Cut(gs, p.head)
  }

  lemma NothingToSettle(gs: seq<Group>, h: nat)
    requires AllWellFormed(gs) && h <= |gs|
    ensures Settled(gs, h, h)
  {
  }

  lemma WithinSettles(gs: seq<Group>, s: System)
    requires AllWellFormed(gs)
    requires ChainOk(gs) && Inv(gs, s) && s.process.Up? && s.process.complete && WithinHead(gs, s.process)
    ensures Settles(gs, s.process)
  {
    hide ChainOk, DurableIsClean, Settled, Cut, From, Leafless, Beyond, AtPoint, DoneBetween, WellFormed, RowsUpTo;
    var p, d :| Stands(gs, s.db, s.process.m, s.process.head, true, p, d);
    BeyondIs(gs, s.db, s.process.m, s.process.head, true, p, d);
    CompleteIsLeafless(gs, s.db, s.process.m, s.process.head, p, d);
    NothingToSettle(gs, d);
  }

  lemma StepStaysWithin(gs: seq<Group>, s: System, step: Step)
    requires AllWellFormed(gs)
    requires Honest(gs) && Inv(gs, s) && Enabled(gs, s, step) && (Commits(step) ==> Settles(gs, s.process))
    requires WithinHead(gs, s.process) && (step.Poll? ==> s.process.head <= step.head)
    ensures WithinHead(gs, Do(gs, s, step).process)
  {
    hide Honest, Stands, DurableIsClean, Polled, Stage, Flushed, Booted, Settles, Beyond, From, Cut;
    HonestParts(gs);
    match step {
      case Poll(head, k, q) =>
        var p, d :| Stands(gs, s.db, s.process.m, s.process.head, s.process.complete, p, d);
        BeyondIs(gs, s.db, s.process.m, s.process.head, s.process.complete, p, d);
        var p', d' := PollStands(gs, s.db, s.process.m, s.process.head, s.process.complete, p, d, head, k, q);
        PolledShape(gs, s.process.m, head, k, q);
        var u := Polled(gs, s.process.m, head, k, q);
        BeyondIs(gs, s.db, u.m, head, u.complete, p', d');
        CutGrows(gs, s.process.head, head);
      case Commit =>
        var p, d :| Stands(gs, s.db, s.process.m, s.process.head, true, p, d);
        CommitLands(gs, s.db, s.process.m, s.process.head, p, d);
        BeyondIs(gs, s.db, s.process.m, s.process.head, true, p, d);
        BeyondIs(gs, Stage(s.db, s.process.m, s.process.head), Flushed(s.process.m, s.process.head), s.process.head,
                 false, p, d);
      case BootUp =>
        var n := Cut(gs, s.db.feed.cursor);
        BootStands(gs, s.db);
        BeyondIs(gs, s.db, Booted(s.db), s.db.feed.cursor, false, |RowsUpTo(gs, n)|, n);
      case _ =>
    }
  }

  /** A run whose heads never go back within a process settles at every commit. */
  lemma {:induction false} ForwardSettles(gs: seq<Group>, steps: seq<Step>)
    requires AllWellFormed(gs)
    requires Honest(gs) && Run(gs, steps).Some? && Forward(gs, steps)
    ensures AllSettle(gs, steps) && WithinHead(gs, Run(gs, steps).value.process)
  {
    hide Honest, Inv, Enabled, Do, Settles, WithinHead;
    if steps == [] {
      DownIsWithin(gs);
    } else {
      var init, last := steps[..|steps| - 1], steps[|steps| - 1];
      ForwardSettles(gs, init);
      RunKeeps(gs, init);
      var s := Run(gs, init).value;
      HonestParts(gs);
      if Commits(last) {
        CommitsOnlyComplete(gs, s, last);
        WithinSettles(gs, s);
      }
      if last.Poll? {
        PollsOnlyUp(gs, s, last);
      }
      StepStaysWithin(gs, s, last);
    }
  }

  lemma DownIsWithin(gs: seq<Group>)
    requires AllWellFormed(gs)
    ensures WithinHead(gs, Down)
  {
  }

  lemma CommitsOnlyComplete(gs: seq<Group>, s: System, step: Step)
    requires AllWellFormed(gs) && Enabled(gs, s, step) && Commits(step)
    ensures s.process.Up? && s.process.complete
  {
  }

  lemma PollsOnlyUp(gs: seq<Group>, s: System, step: Step)
    requires AllWellFormed(gs) && Enabled(gs, s, step) && step.Poll?
    ensures s.process.Up?
  {
  }

  /** What an old head costs. A commit that does not settle leaves the rows of the groups handled past
      the head. After a crash the next boot serves those rows, and its first poll reads the groups
      again: it throws over them exactly when some module went through an odd number of transitions. */
  lemma OldHeadCosts(gs: seq<Group>, s: System, w: set<Address>)
    requires AllWellFormed(gs)
    requires ChainOk(gs) && Inv(gs, s) && s.process.Up? && s.process.complete
    ensures var h, d := Cut(gs, s.process.head), Beyond(gs, s.process.m, From(gs, s.process.m));
            var db := Stage(s.db, s.process.m, s.process.head);
            && h <= d <= |gs| && db == Dump(Clean(gs, d), s.process.head)
            && View(Booted(db)) == View(Clean(gs, d)) && From(gs, Booted(db)) == h && K.Valid(Booted(db).kem)
            && (RunKept(Booted(db), gs, w, h, d).1 <==> AllEven(gs, h, d, d))
            && (RunKept(Booted(db), gs, w, h, d).1 ==> View(RunKept(Booted(db), gs, w, h, d).0) == View(Clean(gs, d)))
  {
    hide ChainOk, RowsUpTo, Clean, WellFormed, Dump, Stage, Cut, Leafless, AtPoint, DoneBetween, Booted, View, RunKept,
      Beyond, DurableIsClean;
    var head := s.process.head;
    var p, d :| Stands(gs, s.db, s.process.m, head, true, p, d);
    CommitLands(gs, s.db, s.process.m, head, p, d);
    CompleteIsLeafless(gs, s.db, s.process.m, head, p, d);
    BeyondIs(gs, s.db, s.process.m, head, true, p, d);
    BootLands(gs, d, head);
    BootForgets(gs, d, head);
    var m := Booted(Dump(Clean(gs, d), head));
    ViewOf(Dump(Clean(gs, d), head), m, gs, |RowsUpTo(gs, d)|, d);
    RereadThrowsIff(gs, m, w, Cut(gs, head), d);
  }

  lemma BootForgets(gs: seq<Group>, n: nat, block: int)
    requires AllWellFormed(gs) && n <= |gs|
    requires ChainOk(gs)
    ensures Booted(Dump(Clean(gs, n), block)).modules.seen == {} && Booted(Dump(Clean(gs, n), block)).kem.seen == {}
  {
    hide ChainOk, WellFormed, Clean, Dump, Booted;
    BootIsCore(gs, n, block);
  }
}
