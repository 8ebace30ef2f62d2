/** applyLogs behind its gate: what pass 1 and pass 2 make of a range some of whose ops the gate has
    dropped, because their module has left the watch-set since the range was first applied. */
module Gated {
  import opened Field
  import opened Imt
  import opened Chain
  import opened Ingest
  import opened Correlation
  import opened Effects
  import opened Replay
  import opened Runs
  import opened Watch
  import K = Kem
  import R = Registry

  // ---- what the gate leaves of a range -----------------------------------------------

  /** What the gate leaves of an op whose module is not watched: the pool emitted it. */
  function Remains(g: Group): seq<Log>
    requires WellFormed(g)
  {
    TreeLogs(g) + AnchorLogs(g)
  }

  /** Group `i` of the range that starts at `c` gets past the gate whole. */
  predicate GetsIn(gs: seq<Group>, w: set<Address>, c: nat, i: nat)
    requires AllWellFormed(gs) && c <= i < |gs|
  {
    EmitterOf(gs[i]) == POOL || EmitterOf(gs[i]) in w + Registered(Range(gs, c, i))
  }

  /** The logs of the groups from `c` to `n` that the gate keeps. */
  function Kept(gs: seq<Group>, w: set<Address>, c: nat, n: nat): seq<Log>
    requires AllWellFormed(gs) && c <= n <= |gs|
  {
    Gate(w, Range(gs, c, n))
  }

  /** What the dropped ops leave in the queues. */
  function Left(gs: seq<Group>, w: set<Address>, c: nat, n: nat): seq<Log>
    requires AllWellFormed(gs) && c <= n <= |gs|
  {
    if n == c then []
    else Left(gs, w, c, n - 1) + if GetsIn(gs, w, c, n - 1) then [] else Remains(gs[n - 1])
  }

  /** The two ops draw from one of the queues of their transaction. */
  predicate Contend(g: Group, g': Group)
    requires WellFormed(g) && WellFormed(g')
  {
    || (g.SpendGroup? && g'.SpendGroup?)
    || (IsBatch(g) && IsBatch(g'))
    || (AnchorOf(g).Some? && AnchorOf(g').Some?)
  }

  /** A dropped op comes before this one in its transaction and draws from the same queue. */
  ghost predicate Blocked(gs: seq<Group>, w: set<Address>, c: nat, j: nat)
    requires AllWellFormed(gs) && c <= j < |gs|
  {
    exists i :: c <= i < j && !GetsIn(gs, w, c, i) && gs[i].h.txHash == gs[j].h.txHash && Contend(gs[i], gs[j])
  }

  /** What pass 2 makes of the range: dropped ops do nothing, a blocked one throws, the others have
      their own effect. */
  ghost function RunKept(m: Mem, gs: seq<Group>, w: set<Address>, c: nat, n: nat): (r: (Mem, bool))
    requires K.Valid(m.kem) && AllWellFormed(gs) && c <= n <= |gs|
    ensures K.Valid(r.0.kem)
  {
    if n == c then (m, true)
    else
      var r := RunKept(m, gs, w, c, n - 1);
      if !r.1 || !GetsIn(gs, w, c, n - 1) then r
      else if Blocked(gs, w, c, n - 1) then (r.0, false)
      else GroupEffect(r.0, gs[n - 1])
  }

  // ---- premises about the chain ------------------------------------------------------

  /** Module events are not the pool's. */
  ghost predicate FromModules(gs: seq<Group>)
    requires AllWellFormed(gs)
  {
    forall i :: 0 <= i < |gs| && (AnchorOf(gs[i]).Some? || gs[i].AcceptGroup?) ==> gs[i].emitter != POOL
  }

  /** The ops of one transaction are told apart by their first commitment or their subtree root. */
  ghost predicate Distinguishable(gs: seq<Group>)
    requires AllWellFormed(gs)
  {
    forall i, j :: 0 <= i < j < |gs| && gs[i].h.txHash == gs[j].h.txHash ==>
      && (gs[i].SpendGroup? && gs[j].SpendGroup? ==> gs[i].ocs[0] != gs[j].ocs[0])
      && (IsBatch(gs[i]) && IsBatch(gs[j]) ==> gs[i].s.subtreeRoot != gs[j].s.subtreeRoot)
  }

  // ---- one group at a time -----------------------------------------------------------

  lemma KeptStep(gs: seq<Group>, w: set<Address>, c: nat, n: nat)
    requires AllWellFormed(gs) && c < n <= |gs|
    requires FromModules(gs)
    ensures Kept(gs, w, c, n)
         == Kept(gs, w, c, n - 1) + if GetsIn(gs, w, c, n - 1) then LogsOf(gs[n - 1]) else Remains(gs[n - 1])
  {
    hide WellFormed, LogsOf, Gate, Registered, EmitterOf;
    var a, g := Range(gs, c, n - 1), gs[n - 1];
    OneMoreGroup(gs, c, n);
    GateAdds(w, a, LogsOf(g));
    GroupAtGate(w + Registered(a), g);
  }

  lemma KeptNothing(gs: seq<Group>, w: set<Address>, c: nat)
    requires AllWellFormed(gs) && c <= |gs|
    ensures Kept(gs, w, c, c) == []
  {
    EmptyRange(gs, c);
  }

  lemma {:induction false} KeptParsed(gs: seq<Group>, w: set<Address>, c: nat, n: nat)
    requires AllWellFormed(gs) && c <= n <= |gs|
    requires FromModules(gs)
    ensures AllParsed(Kept(gs, w, c, n))
  {
    hide WellFormed, LogsOf, Kept, GetsIn, Parsed, FromModules;
    if n == c {
      KeptNothing(gs, w, c);
    } else {
      KeptParsed(gs, w, c, n - 1);
      KeptStep(gs, w, c, n);
      QuietPrefix(gs[n - 1]);
    }
  }

  // ---- pass 1 does not notice --------------------------------------------------------

  lemma RemainsInsert(base: seq<Row>, g: Group)
    requires WellFormed(g) && Truthful(base, LogsOf(g))
    ensures Truthful(base, Remains(g)) && TreeRows(Remains(g)) == GroupRows(g)
  {
    hide TreeLogs, AnchorLogs, MainLog, TailLogs, TreeRows, Truthful;
    assert LogsOf(g) == Remains(g) + ([MainLog(g)] + TailLogs(g));
    TruthfulAdds(base, Remains(g), [MainLog(g)] + TailLogs(g));
    GroupRowsAre(g);
    TreeRowsAdd(TreeLogs(g), AnchorLogs(g));
    AnchorInsertsNothing(g);
  }

  lemma AnchorInsertsNothing(g: Group)
    requires WellFormed(g)
    ensures TreeRows(AnchorLogs(g)) == []
  {
    if AnchorOf(g).Some? {
      OneRow(AnchorLogs(g)[0]);
    }
  }

  /** The inserts of a dropped op stay. */
  lemma {:induction false} KeptRows(gs: seq<Group>, w: set<Address>, c: nat, n: nat)
    requires AllWellFormed(gs) && c <= n <= |gs|
    requires FromModules(gs) && Truthful([], Flatten(gs))
    ensures RowsUpTo(gs, c) + TreeRows(Kept(gs, w, c, n)) == RowsUpTo(gs, n)
    ensures Truthful(RowsUpTo(gs, c), Kept(gs, w, c, n))
  {
    hide WellFormed, LogsOf, Kept, GetsIn, Remains, FromModules, Truthful, TreeRows, Flatten;
    if n == c {
      KeptNothing(gs, w, c);
      NoRow();
      TruthfulOfNothing(RowsUpTo(gs, c));
    } else {
      KeptRows(gs, w, c, n - 1);
      KeptStep(gs, w, c, n);
      TruthfulGroup(gs, n - 1);
      RemainsInsert(RowsUpTo(gs, n - 1), gs[n - 1]);
      var part := if GetsIn(gs, w, c, n - 1) then LogsOf(gs[n - 1]) else Remains(gs[n - 1]);
      GroupRowsOf(gs[n - 1]);
      TreeRowsAdd(Kept(gs, w, c, n - 1), part);
      Assoc(RowsUpTo(gs, c), TreeRows(Kept(gs, w, c, n - 1)), TreeRows(part));
      TruthfulJoins(RowsUpTo(gs, c), Kept(gs, w, c, n - 1), part);
    }
  }

  lemma GroupRowsOf(g: Group)
    requires WellFormed(g)
    ensures TreeRows(LogsOf(g)) == GroupRows(g)
  {
  }

  lemma TruthfulOfNothing(base: seq<Row>)
    ensures Truthful(base, []) && base + [] == base
  {
  }

  // ---- every batch let in still finds its own material -------------------------------

  lemma RemainsPublishNothing(g: Group, tx: nat, start: nat, consumer: bool)
    requires WellFormed(g)
    ensures PublishedOf(Remains(g), tx, start, consumer) == None
  {
    hide TreeLogs, AnchorLogs, PublishedOf;
    HeadPublishesNothing(g, start, consumer);
    var head := Remains(g) + [MainLog(g)];
    assert forall i :: 0 <= i < |Remains(g)| ==> Remains(g)[i] == head[i];
    NothingPublished(Remains(g), tx, start, consumer);
  }

  lemma OwnsIsBatch(g: Group, tx: nat, start: nat, consumer: bool)
    requires Owns(g, tx, start, consumer)
    ensures IsBatch(g) && g.s.start == start
  {
  }

  lemma {:induction false} KeptPublishes(gs: seq<Group>, w: set<Address>, c: nat, n: nat, i: nat)
    requires AllWellFormed(gs) && c <= n <= |gs| && c <= i < |gs| && IsBatch(gs[i]) && GetsIn(gs, w, c, i)
    requires FromModules(gs) && DistinctBatches(gs)
    ensures var g := gs[i];
            PublishedOf(Kept(gs, w, c, n), g.h.txHash, g.s.start, g.PrivGroup?) == if i < n then g.published else None
    decreases n
  {
    hide WellFormed, LogsOf, Kept, GetsIn, Remains, FromModules, PublishedOf;
    var tx, start, consumer := gs[i].h.txHash, gs[i].s.start, gs[i].PrivGroup?;
    if n == c {
      KeptNothing(gs, w, c);
      NothingPublished([], tx, start, consumer);
    } else {
      KeptPublishes(gs, w, c, n - 1, i);
      KeptStep(gs, w, c, n);
      GroupPublishes(gs[n - 1], tx, start, consumer);
      RemainsPublishNothing(gs[n - 1], tx, start, consumer);
      var part := if GetsIn(gs, w, c, n - 1) then LogsOf(gs[n - 1]) else Remains(gs[n - 1]);
      PublishedAdds(Kept(gs, w, c, n - 1), part, tx, start, consumer);
      if Owns(gs[n - 1], tx, start, consumer) {
        OwnsIsBatch(gs[n - 1], tx, start, consumer);
        assert n - 1 == i;
      }
    }
  }

  // ---- what the dropped ops leave ----------------------------------------------------

  lemma RemainsShare(g: Group, tx: nat)
    requires WellFormed(g)
    ensures ShareOf(Remains(g), tx) == if tx == g.h.txHash then OwnShare(g) else NONE
  {
    hide ShareOf, TreeLogs;
    NoShare(tx);
    SharesAdd(TreeLogs(g), AnchorLogs(g), tx);
    TreeShares(g, tx);
    if AnchorOf(g).Some? {
      OneShare(AnchorLogs(g)[0], tx);
    }
  }

  lemma ContendIff(g: Group, g': Group)
    requires WellFormed(g) && WellFormed(g')
    ensures Clear(OwnShare(g), g') <==> !Contend(g, g')
  {
  }

  lemma ClearAdds(a: Share, b: Share, g: Group)
    requires WellFormed(g)
    ensures Clear(Plus(a, b), g) <==> Clear(a, g) && Clear(b, g)
  {
  }

  lemma LeftAdds(gs: seq<Group>, w: set<Address>, c: nat, n: nat, tx: nat)
    requires AllWellFormed(gs) && c < n <= |gs|
    ensures ShareOf(Left(gs, w, c, n), tx)
         == Plus(ShareOf(Left(gs, w, c, n - 1), tx),
                 if !GetsIn(gs, w, c, n - 1) && tx == gs[n - 1].h.txHash then OwnShare(gs[n - 1]) else NONE)
  {
    hide WellFormed, GetsIn, Remains, ShareOf, OwnShare;
    NoShare(tx);
    RemainsShare(gs[n - 1], tx);
    SharesAdd(Left(gs, w, c, n - 1), if GetsIn(gs, w, c, n - 1) then [] else Remains(gs[n - 1]), tx);
  }

  ghost predicate BlockedBy(gs: seq<Group>, w: set<Address>, c: nat, n: nat, g: Group)
    requires AllWellFormed(gs) && WellFormed(g) && c <= n <= |gs|
  {
    exists i :: c <= i < n && !GetsIn(gs, w, c, i) && gs[i].h.txHash == g.h.txHash && Contend(gs[i], g)
  }

  /** The queues an op draws from are clear of leftovers exactly when no dropped op contends with it. */
  lemma {:induction false} ClearIff(gs: seq<Group>, w: set<Address>, c: nat, n: nat, g: Group)
    requires AllWellFormed(gs) && WellFormed(g) && c <= n <= |gs|
    ensures Clear(ShareOf(Left(gs, w, c, n), g.h.txHash), g) <==> !BlockedBy(gs, w, c, n, g)
  {
    hide WellFormed, GetsIn, Contend, Clear, OwnShare, ShareOf, Left;
    if n == c {
      NothingLeft(g);
      LeftOfNothing(gs, w, c);
    } else {
      var last := gs[n - 1];
      ClearIff(gs, w, c, n - 1, g);
      LeftAdds(gs, w, c, n, g.h.txHash);
      var mine := if !GetsIn(gs, w, c, n - 1) && g.h.txHash == last.h.txHash then OwnShare(last) else NONE;
      ClearAdds(ShareOf(Left(gs, w, c, n - 1), g.h.txHash), mine, g);
      ContendIff(last, g);
      ClearOfNone(g);
    }
  }

  lemma LeftOfNothing(gs: seq<Group>, w: set<Address>, c: nat)
    requires AllWellFormed(gs) && c <= |gs|
    ensures Left(gs, w, c, c) == []
  {
  }

  lemma ClearOfNone(g: Group)
    requires WellFormed(g)
    ensures Clear(NONE, g)
  {
  }

  /** Whatever waits first in a queue was left by a dropped op of the transaction. */
  ghost predicate HeadsAreDropped(gs: seq<Group>, w: set<Address>, c: nat, n: nat, tx: nat, s: Share)
    requires AllWellFormed(gs) && c <= n <= |gs|
  {
    && (s.pairs != [] ==>
        exists i :: c <= i < n && gs[i].h.txHash == tx && gs[i].SpendGroup? && s.pairs[0].leaf == gs[i].ocs[0])
    && (s.subtrees != [] ==>
        exists i :: c <= i < n && gs[i].h.txHash == tx && IsBatch(gs[i]) && s.subtrees[0] == gs[i].s)
    && (s.ops != [] ==>
        exists i :: c <= i < n && gs[i].h.txHash == tx && AnchorOf(gs[i]).Some? && s.ops[0] == AnchorOf(gs[i]).value)
  }

  lemma OwnHeads(gs: seq<Group>, w: set<Address>, c: nat, n: nat)
    requires AllWellFormed(gs) && c < n <= |gs|
    ensures HeadsAreDropped(gs, w, c, n, gs[n - 1].h.txHash, OwnShare(gs[n - 1]))
  {
    var g := gs[n - 1];
    assert WellFormed(g);
    if g.SpendGroup? {
      assert PairsOf(g)[0].leaf == g.ocs[0];
    }
  }

  lemma HeadsWiden(gs: seq<Group>, w: set<Address>, c: nat, n: nat, tx: nat, s: Share)
    requires AllWellFormed(gs) && c < n <= |gs| && HeadsAreDropped(gs, w, c, n - 1, tx, s)
    ensures HeadsAreDropped(gs, w, c, n, tx, s)
  {
    hide WellFormed;
  }

  lemma HeadsOfPlus(gs: seq<Group>, w: set<Address>, c: nat, n: nat, tx: nat, a: Share, b: Share)
    requires AllWellFormed(gs) && c <= n <= |gs| && HeadsAreDropped(gs, w, c, n, tx, a)
    requires HeadsAreDropped(gs, w, c, n, tx, b)
    ensures HeadsAreDropped(gs, w, c, n, tx, Plus(a, b))
  {
    hide WellFormed;
  }

  lemma {:induction false} LeftHeads(gs: seq<Group>, w: set<Address>, c: nat, n: nat, tx: nat)
    requires AllWellFormed(gs) && c <= n <= |gs|
    ensures HeadsAreDropped(gs, w, c, n, tx, ShareOf(Left(gs, w, c, n), tx))
  {
    hide WellFormed, GetsIn, OwnShare, ShareOf, Left, HeadsAreDropped;
    NoHeads(gs, w, c, n, tx);
    if n == c {
      LeftOfNothing(gs, w, c);
      NoShare(tx);
    } else {
      LeftHeads(gs, w, c, n - 1, tx);
      LeftAdds(gs, w, c, n, tx);
      HeadsWiden(gs, w, c, n, tx, ShareOf(Left(gs, w, c, n - 1), tx));
      OwnHeads(gs, w, c, n);
      var mine := if !GetsIn(gs, w, c, n - 1) && tx == gs[n - 1].h.txHash then OwnShare(gs[n - 1]) else NONE;
      HeadsOfPlus(gs, w, c, n, tx, ShareOf(Left(gs, w, c, n - 1), tx), mine);
    }
  }

  lemma NoHeads(gs: seq<Group>, w: set<Address>, c: nat, n: nat, tx: nat)
    requires AllWellFormed(gs) && c <= n <= |gs|
    ensures HeadsAreDropped(gs, w, c, n, tx, NONE)
  {
  }

  // ---- a blocked op throws -----------------------------------------------------------

  lemma FirstsAscend(gs: seq<Group>, i: nat, j: nat)
    requires AllWellFormed(gs) && i < j < |gs|
    requires Truthful([], Flatten(gs)) && HasLeaves(gs[i]) && HasLeaves(gs[j])
    ensures First(gs[i]) < First(gs[j])
  {
    hide LogsOf, Truthful, Flatten, GroupRows, NextOf, RowsUpTo, Grown, TreeRows;
    Bounds(gs, i);
    Bounds(gs, j);
    TruthfulBetween(gs, i + 1, j);
    assert WellFormed(gs[i]);
  }

  lemma AnchorNamesStart(g: Group)
    requires WellFormed(g) && AnchorOf(g).Some?
    ensures HasLeaves(g) && AnchorOf(g).value.start == First(g)
  {
  }

  /** The first thing an op draws is not its own. */
  ghost predicate Foreign(before: Share, g: Group)
    requires WellFormed(g) && HasLeaves(g)
  {
    && (before.pairs != [] && g.SpendGroup? ==> before.pairs[0].leaf != g.ocs[0])
    && (before.subtrees != [] && IsBatch(g) ==> before.subtrees[0].subtreeRoot != g.s.subtreeRoot)
    && (before.ops != [] ==> before.ops[0].start != First(g))
  }

  lemma LeftIsForeign(gs: seq<Group>, w: set<Address>, c: nat, j: nat)
    requires AllWellFormed(gs) && c <= j < |gs| && HasLeaves(gs[j])
    requires Truthful([], Flatten(gs)) && Distinguishable(gs)
    ensures Foreign(ShareOf(Left(gs, w, c, j), gs[j].h.txHash), gs[j])
  {
    hide LogsOf, Truthful, Flatten, ShareOf, Left, AnchorOf, First, HasLeaves, WellFormed;
    var tx, s := gs[j].h.txHash, ShareOf(Left(gs, w, c, j), gs[j].h.txHash);
    LeftHeads(gs, w, c, j, tx);
    if s.ops != [] {
      var i :| c <= i < j && gs[i].h.txHash == tx && AnchorOf(gs[i]).Some? && s.ops[0] == AnchorOf(gs[i]).value;
      AnchorNamesStart(gs[i]);
      FirstsAscend(gs, i, j);
    }
  }

  /** An op that finds something foreign in a queue it draws from throws, and nothing has happened. */
  lemma ForeignThrows(m: Mem, q: Queues, all: seq<Log>, before: Share, g: Group, more: Share)
    requires K.Valid(m.kem) && AllParsed(all) && WellFormed(g) && Parsed(MainLog(g)) && HasLeaves(g)
    requires Held(q, g.h.txHash) == Plus(before, Plus(OwnShare(g), more)) && !Clear(before, g) && Foreign(before, g)
    ensures Step(m, q, all, MainLog(g)).0 == m && !Step(m, q, all, MainLog(g)).2
  {
    hide TreeLogs, Rest, Ingest.Effects, Correlate, Clear, Foreign, OwnShare, Held;
    if g.SpendGroup? {
      ForeignSpend(q, m.modules, before, g, more);
    } else {
      ForeignBatch(q, m.modules, before, g, more);
    }
  }

  lemma ForeignSpend(q: Queues, modules: R.State, before: Share, g: Group, more: Share)
    requires WellFormed(g) && g.SpendGroup?
    requires Held(q, g.h.txHash) == Plus(before, Plus(OwnShare(g), more)) && !Clear(before, g) && Foreign(before, g)
    ensures Correlate(q, modules, MainLog(g)).1 == None
  {
    hide TreeLogs, Rest, TakePairs;
    var tx := g.h.txHash;
    if before.pairs != [] {
      assert Waiting(q.appended, tx)[0] == before.pairs[0];
      WrongHead(Waiting(q.appended, tx), g.ocs);
    } else {
      assert [] + (PairsOf(g) + more.pairs) == PairsOf(g) + more.pairs;
      TakeOwn(PairsOf(g), more.pairs, g.ocs);
      assert Waiting(q.ops, tx)[0] == before.ops[0];
    }
  }

  lemma WrongHead(queue: seq<Pair>, ocs: seq<Felt>)
    requires ocs != [] && queue != [] && queue[0].leaf != ocs[0]
    ensures TakePairs(queue, ocs) == None
  {
  }

  lemma ForeignBatch(q: Queues, modules: R.State, before: Share, g: Group, more: Share)
    requires WellFormed(g) && IsBatch(g)
    requires Held(q, g.h.txHash) == Plus(before, Plus(OwnShare(g), more)) && !Clear(before, g) && Foreign(before, g)
    ensures Correlate(q, modules, MainLog(g)).1 == None
  {
    hide TreeLogs, Rest;
    var tx := g.h.txHash;
    if before.subtrees != [] {
      assert Waiting(q.subtrees, tx)[0] == before.subtrees[0];
    } else {
      assert Waiting(q.ops, tx)[0] == before.ops[0];
    }
  }

  // ---- pass 2 ------------------------------------------------------------------------

  /** The module of every op let in is one the registry has seen by then. */
  ghost predicate AllKnown(m: Mem, gs: seq<Group>, w: set<Address>, c: nat, n: nat)
    requires K.Valid(m.kem) && AllWellFormed(gs) && c <= n <= |gs|
  {
    forall i {:trigger RunKept(m, gs, w, c, i)} :: c <= i < n && RunKept(m, gs, w, c, i).1 && GetsIn(gs, w, c, i) ==>
      Attributed(RunKept(m, gs, w, c, i).0, gs[i])
  }

  lemma AllKnownBefore(m: Mem, gs: seq<Group>, w: set<Address>, c: nat, n: nat)
    requires K.Valid(m.kem) && AllWellFormed(gs) && c < n <= |gs| && AllKnown(m, gs, w, c, n)
    ensures AllKnown(m, gs, w, c, n - 1)
    ensures RunKept(m, gs, w, c, n - 1).1 && GetsIn(gs, w, c, n - 1) ==>
              Attributed(RunKept(m, gs, w, c, n - 1).0, gs[n - 1])
  {
    hide WellFormed, RunKept, GetsIn, Attributed;
  }

  lemma BlockedPass(m: Mem, q: Queues, all: seq<Log>, left: seq<Log>, g: Group, rest: seq<Log>)
    requires K.Valid(m.kem) && WellFormed(g) && AllParsed(all) && AllParsed(LogsOf(g)) && HasLeaves(g)
    requires Owes(q, left + (LogsOf(g) + rest)) && !Clear(ShareOf(left, g.h.txHash), g)
    requires Foreign(ShareOf(left, g.h.txHash), g)
    ensures Pass2(m, q, all, LogsOf(g)).0 == m && !Pass2(m, q, all, LogsOf(g)).2
  {
    hide TreeLogs, AnchorLogs, MainLog, TailLogs, Pass2, Step, Parsed, WellFormed, Clear, Foreign, OwnShare, ShareOf,
      Owes, Held;
    QuietPrefix(g);
    var a, b := TreeLogs(g) + AnchorLogs(g), [MainLog(g)];
    QuietPass(m, q, all, a);
    OnePass(m, q, all, MainLog(g));
    OwnHead(q, left, g, rest);
    ForeignThrows(m, q, all, ShareOf(left, g.h.txHash), g, ShareOf(rest, g.h.txHash));
    PassAdds(m, q, all, a, b);
    PassAdds(m, q, all, a + b, TailLogs(g));
  }

  /** One more group of the range. */
  lemma GroupKept(m: Mem, q: Queues, all: seq<Log>, gs: seq<Group>, w: set<Address>, c: nat, j: nat, rest: seq<Log>,
                  txs: set<nat>)
    requires K.Valid(m.kem) && AllWellFormed(gs) && c <= j < |gs| && AllParsed(all)
    requires Truthful([], Flatten(gs)) && Distinguishable(gs) && Dated(gs[j], txs)
    requires GetsIn(gs, w, c, j) ==> Indexed(all, gs[j]) && Attributed(m, gs[j])
    requires var part := if GetsIn(gs, w, c, j) then LogsOf(gs[j]) else Remains(gs[j]);
             Owes(q, Left(gs, w, c, j) + (part + rest)) && AllParsed(part)
    requires NobodyWaits(q, txs)
    ensures var part := if GetsIn(gs, w, c, j) then LogsOf(gs[j]) else Remains(gs[j]);
            var (m', q', ok) := Pass2(m, q, all, part);
            && (m', ok) == (if !GetsIn(gs, w, c, j) then (m, true)
                            else if Blocked(gs, w, c, j) then (m, false)
                            else GroupEffect(m, gs[j]))
            && (ok ==> Owes(q', Left(gs, w, c, j + 1) + rest) && NobodyWaits(q', txs))
  {
    hide LogsOf, WellFormed, Parsed, GroupEffect, Owes, NobodyWaits, Pass2, Indexed, Attributed, Dated, GetsIn, Clear,
      Foreign, ShareOf, Truthful, Flatten, Distinguishable, Remains, Contend, HasLeaves;
    var g, left := gs[j], Left(gs, w, c, j);
    ClearIff(gs, w, c, j, g);
    if !GetsIn(gs, w, c, j) {
      RemainsQuiet(g);
      QuietPass(m, q, all, Remains(g));
      assert left + (Remains(g) + rest) == left + Remains(g) + rest;
    } else if Blocked(gs, w, c, j) {
      ContendHasLeaves(gs, w, c, j);
      LeftIsForeign(gs, w, c, j);
      BlockedPass(m, q, all, left, g, rest);
    } else {
      GroupPass(m, q, all, left, g, rest, txs);
      assert left + [] == left;
    }
  }

  lemma RemainsQuiet(g: Group)
    requires WellFormed(g)
    ensures forall i :: 0 <= i < |Remains(g)| ==> Quiet(Remains(g)[i])
  {
    QuietPrefix(g);
  }

  lemma ContendHasLeaves(gs: seq<Group>, w: set<Address>, c: nat, j: nat)
    requires AllWellFormed(gs) && c <= j < |gs| && Blocked(gs, w, c, j)
    ensures HasLeaves(gs[j])
  {
    hide WellFormed;
  }

  ghost predicate KeptIndexed(all: seq<Log>, gs: seq<Group>, w: set<Address>, c: nat, n: nat)
    requires AllWellFormed(gs) && c <= n <= |gs|
  {
    forall i :: c <= i < n && GetsIn(gs, w, c, i) ==> Indexed(all, gs[i])
  }

  /** Pass 2 over what the gate keeps of a range is RunKept: thrown or not, the read model is left
      exactly there. */
  lemma {:induction false} KeptPass(m: Mem, q: Queues, all: seq<Log>, gs: seq<Group>, w: set<Address>, c: nat, n: nat,
                                    rest: seq<Log>, txs: set<nat>)
    requires K.Valid(m.kem) && AllWellFormed(gs) && c <= n <= |gs|
    requires AllParsed(all) && AllParsed(Kept(gs, w, c, n))
    requires FromModules(gs) && Truthful([], Flatten(gs)) && Distinguishable(gs) && AllDated(gs, txs)
    requires KeptIndexed(all, gs, w, c, n) && AllKnown(m, gs, w, c, n)
    requires Owes(q, Kept(gs, w, c, n) + rest) && NobodyWaits(q, txs)
    ensures var (m', q', ok) := Pass2(m, q, all, Kept(gs, w, c, n));
            && (m', ok) == RunKept(m, gs, w, c, n)
            && (ok ==> Owes(q', Left(gs, w, c, n) + rest) && NobodyWaits(q', txs))
    decreases n
  {
    hide LogsOf, WellFormed, Parsed, GroupEffect, Owes, NobodyWaits, Step, Indexed, Attributed, Dated, GetsIn, Kept,
      FromModules, Truthful, Flatten, Distinguishable, Remains, Blocked, AllKnown;
    if n == c {
      KeptNothing(gs, w, c);
    } else {
      var part := if GetsIn(gs, w, c, n - 1) then LogsOf(gs[n - 1]) else Remains(gs[n - 1]);
      var before := Kept(gs, w, c, n - 1);
      KeptStep(gs, w, c, n);
      assert before + part + rest == before + (part + rest);
      PartsParsed(before, part);
      AllKnownBefore(m, gs, w, c, n);
      KeptPass(m, q, all, gs, w, c, n - 1, part + rest, txs);
      PassAdds(m, q, all, before, part);
      var (m', q', ok) := Pass2(m, q, all, before);
      if ok {
        GroupKept(m', q', all, gs, w, c, n - 1, rest, txs);
      }
    }
  }

  lemma PartsParsed(a: seq<Log>, b: seq<Log>)
    requires AllParsed(a + b)
    ensures AllParsed(a) && AllParsed(b)
  {
    forall i | 0 <= i < |b|
      ensures Parsed(b[i])
    {
      assert b[i] == (a + b)[|a| + i];
    }
    forall i | 0 <= i < |a|
      ensures Parsed(a[i])
    {
      assert a[i] == (a + b)[i];
    }
  }
}
