/** The chain as a list of op groups, and the run that never fails. */
module Runs {
  import opened Field
  import opened Merkle
  import opened Imt
  import opened Chain
  import opened Ingest
  import opened Correlation
  import opened Effects
  import opened Replay
  import opened Durable
  import K = Kem
  import M = Mirror
  import T = LeafTables

  function GroupRows(g: Group): seq<Row>
    requires WellFormed(g)
  {
    TreeRows(LogsOf(g))
  }

  /** The inserts of the first `n` groups. */
  function RowsUpTo(gs: seq<Group>, n: nat): seq<Row>
    requires AllWellFormed(gs) && n <= |gs|
  {
    if n == 0 then [] else RowsUpTo(gs, n - 1) + GroupRows(gs[n - 1])
  }

  /** Pass 1 of one group on its own. */
  function Inserted(m: Mem, g: Group): Mem
    requires WellFormed(g)
  {
    m.(tree := Pass1(m.tree, LogsOf(g)).0)
  }

  /** The read model of a run that never failed, was never cut and never rebooted, after `n` groups. */
  function Clean(gs: seq<Group>, n: nat): (m: Mem)
    requires AllWellFormed(gs) && n <= |gs|
    ensures K.Valid(m.kem)
  {
    if n == 0 then Ingest.EMPTY else GroupEffect(Inserted(Clean(gs, n - 1), gs[n - 1]), gs[n - 1]).0
  }

  /** What is assumed of a group: its handler has nothing to throw over (a key to open the envelope with,
      bytes that hash to their commitment, a balanced registry stream), its module is registered by
      then, its recovered notes are new, and its envelope alarms, if any, are under keys of their own. */
  ghost predicate GroupOk(m: Mem, g: Group)
    requires K.Valid(m.kem) && WellFormed(g)
  {
    GroupEffect(m, g).1 && Attributed(m, g) && LedgerFits(m.ledger, g)
  }

  ghost predicate DistinctKeys(gs: seq<Group>)
    requires AllWellFormed(gs)
  {
    forall i, j :: 0 <= i < j < |gs| ==> GroupKey(gs[i]) != GroupKey(gs[j])
  }

  ghost predicate ChainOk(gs: seq<Group>) {
    && AllWellFormed(gs)
    && DistinctKeys(gs)
    && Truthful([], Flatten(gs))
    && OneVintage(gs)
    && forall n {:trigger Clean(gs, n)} :: 0 <= n < |gs| ==> GroupOk(Inserted(Clean(gs, n), gs[n]), gs[n])
  }

  // ---- rows --------------------------------------------------------------------------

  lemma {:induction false} TreeRowsAdd(a: seq<Log>, b: seq<Log>)
    ensures TreeRows(a + b) == TreeRows(a) + TreeRows(b)
    decreases |a|
  {
    if a == [] {
      assert a + b == b;
    } else {
      assert (a + b)[1..] == a[1..] + b;
      TreeRowsAdd(a[1..], b);
    }
  }

  lemma Assoc(a: seq<Row>, b: seq<Row>, c: seq<Row>)
    ensures a + b + c == a + (b + c)
  {
  }

  lemma {:induction false} TruthfulAdds(base: seq<Row>, a: seq<Log>, b: seq<Log>)
    requires Truthful(base, a + b)
    ensures Truthful(base, a) && Truthful(base + TreeRows(a), b)
    decreases |a|
  {
    hide InsertOk, RowsOf;
    if a == [] {
      assert a + b == b && base + [] == base;
    } else {
      assert (a + b)[1..] == a[1..] + b;
      TruthfulAdds(base + RowsOf(a[0]), a[1..], b);
      Assoc(base, RowsOf(a[0]), TreeRows(a[1..]));
    }
  }

  lemma GrowsByOne(base: seq<Row>, l: Log)
    requires InsertOk(base, l) && Grown(base)
    ensures Grown(base + RowsOf(l)) && NextOf(base) <= NextOf(base + RowsOf(l))
  {
    if RowsOf(l) == [] {
      assert base + [] == base;
    } else {
      OneMore(base, RowsOf(l)[0]);
      PaddedIsBoundary(NextOf(base));
    }
  }

  lemma {:induction false} TruthfulGrows(base: seq<Row>, logs: seq<Log>)
    requires Truthful(base, logs) && Grown(base)
    ensures Grown(base + TreeRows(logs)) && NextOf(base) <= NextOf(base + TreeRows(logs))
    decreases |logs|
  {
    hide InsertOk, RowsOf, Grown, NextOf;
    if logs == [] {
      assert base + [] == base;
    } else {
      GrowsByOne(base, logs[0]);
      TruthfulGrows(base + RowsOf(logs[0]), logs[1..]);
      Assoc(base, RowsOf(logs[0]), TreeRows(logs[1..]));
    }
  }

  lemma {:induction false} FlattenAdds(a: seq<Group>, b: seq<Group>)
    requires AllWellFormed(a) && AllWellFormed(b)
    ensures AllWellFormed(a + b) && Flatten(a + b) == Flatten(a) + Flatten(b)
    decreases |a|
  {
    hide LogsOf, WellFormed;
    if a == [] {
      assert a + b == b;
    } else {
      assert (a + b)[1..] == a[1..] + b;
      FlattenAdds(a[1..], b);
    }
  }

  lemma FlattenOne(g: Group)
    requires WellFormed(g)
    ensures Flatten([g]) == LogsOf(g)
  {
    assert [g][1..] == [];
  }

  lemma {:induction false} RowsUpToIsFlat(gs: seq<Group>, n: nat)
    requires AllWellFormed(gs) && n <= |gs|
    ensures RowsUpTo(gs, n) == TreeRows(Flatten(gs[..n]))
  {
    hide LogsOf, WellFormed;
    if n > 0 {
      RowsUpToIsFlat(gs, n - 1);
      assert gs[..n] == gs[..n - 1] + [gs[n - 1]];
      FlattenAdds(gs[..n - 1], [gs[n - 1]]);
      FlattenOne(gs[n - 1]);
      TreeRowsAdd(Flatten(gs[..n - 1]), LogsOf(gs[n - 1]));
    }
  }

  lemma {:induction false} RowsBetween(gs: seq<Group>, c: nat, n: nat)
    requires AllWellFormed(gs) && c <= n <= |gs|
    ensures RowsUpTo(gs, n) == RowsUpTo(gs, c) + TreeRows(Flatten(gs[c..n]))
  {
    hide LogsOf, WellFormed;
    RowsUpToIsFlat(gs, n);
    RowsUpToIsFlat(gs, c);
    assert gs[..n] == gs[..c] + gs[c..n];
    FlattenAdds(gs[..c], gs[c..n]);
    TreeRowsAdd(Flatten(gs[..c]), Flatten(gs[c..n]));
  }

  /** Any stretch of the chain is truthful on top of what came before. */
  lemma TruthfulBetween(gs: seq<Group>, c: nat, n: nat)
    requires AllWellFormed(gs) && Truthful([], Flatten(gs)) && c <= n <= |gs|
    ensures Truthful(RowsUpTo(gs, c), Flatten(gs[c..n]))
    ensures Grown(RowsUpTo(gs, n)) && NextOf(RowsUpTo(gs, c)) <= NextOf(RowsUpTo(gs, n))
  {
    hide LogsOf, WellFormed, Truthful, RowsUpTo, TreeRows;
    var a, b, d := gs[..c], gs[c..n], gs[n..];
    assert gs == a + (b + d);
    FlattenAdds(b, d);
    FlattenAdds(a, b + d);
    TruthfulAdds([], Flatten(a), Flatten(b) + Flatten(d));
    RowsUpToIsFlat(gs, c);
    assert [] + TreeRows(Flatten(a)) == TreeRows(Flatten(a));
    TruthfulAdds(RowsUpTo(gs, c), Flatten(b), Flatten(d));
    NothingGrown();
    TruthfulGrows([], Flatten(a));
    TruthfulGrows(RowsUpTo(gs, c), Flatten(b));
    RowsBetween(gs, c, n);
  }

  lemma {:induction false} TruthfulJoins(base: seq<Row>, a: seq<Log>, b: seq<Log>)
    requires Truthful(base, a) && Truthful(base + TreeRows(a), b)
    ensures Truthful(base, a + b)
    decreases |a|
  {
    hide InsertOk, RowsOf;
    if a == [] {
      assert a + b == b && base + [] == base;
    } else {
      assert (a + b)[1..] == a[1..] + b;
      Assoc(base, RowsOf(a[0]), TreeRows(a[1..]));
      TruthfulJoins(base + RowsOf(a[0]), a[1..], b);
    }
  }

  lemma NothingGrown()
    ensures Grown([])
  {
  }

  // ---- ranges ------------------------------------------------------------------------

  /** The logs of the groups from `c` to `n`. */
  function Range(gs: seq<Group>, c: nat, n: nat): seq<Log>
    requires AllWellFormed(gs) && c <= n <= |gs|
  {
    Flatten(gs[c..n])
  }

  lemma EmptyRange(gs: seq<Group>, c: nat)
    requires AllWellFormed(gs) && c <= |gs|
    ensures Range(gs, c, c) == []
  {
  }

  lemma OneMoreGroup(gs: seq<Group>, c: nat, n: nat)
    requires AllWellFormed(gs) && c < n <= |gs|
    ensures Range(gs, c, n) == Range(gs, c, n - 1) + LogsOf(gs[n - 1])
  {
    hide WellFormed, LogsOf;
    assert gs[c..n] == gs[c..n - 1] + [gs[n - 1]];
    FlattenAdds(gs[c..n - 1], [gs[n - 1]]);
    FlattenOne(gs[n - 1]);
  }

  lemma RangeParsed(gs: seq<Group>, c: nat, n: nat)
    requires AllWellFormed(gs) && c <= n <= |gs|
    ensures AllParsed(Range(gs, c, n))
  {
    hide WellFormed, LogsOf, Parsed, Flatten;
    FlattenParsed(gs[c..n]);
  }

  // ---- each group stands on its own stretch of leaves --------------------------------

  lemma {:induction false} AppendRows(h: Head, start: nat, ocs: seq<Felt>, roots: seq<Felt>, n: nat)
    requires n <= |ocs| == |roots|
    ensures var rows := TreeRows(AppendLogs(h, start, ocs, roots, n));
            |rows| == n && forall i {:trigger rows[i]} :: 0 <= i < n ==> rows[i] == Single(start + i, ocs[i])
    ensures n > 0 ==>
              && |AppendLogs(h, start, ocs, roots, n)| > 0
              && AppendLogs(h, start, ocs, roots, n)[0].ev == Appended(start, ocs[0], roots[0])
  {
    if n > 0 {
      AppendRows(h, start, ocs, roots, n - 1);
      var last := Emit(h, n - 1, POOL, Appended(start + n - 1, ocs[n - 1], roots[n - 1]));
      TreeRowsAdd(AppendLogs(h, start, ocs, roots, n - 1), [last]);
      OneRow(last);
    }
  }

  lemma OneRow(l: Log)
    ensures TreeRows([l]) == RowsOf(l)
  {
    assert [l][1..] == [] && RowsOf(l) + [] == RowsOf(l);
  }

  lemma GroupRowsAre(g: Group)
    requires WellFormed(g)
    ensures GroupRows(g) == TreeRows(TreeLogs(g))
  {
    hide TreeLogs, TreeRows;
    var a, b, c, d := TreeLogs(g), AnchorLogs(g), [MainLog(g)], TailLogs(g);
    TreeRowsAdd(a + b + c, d);
    TreeRowsAdd(a + b, c);
    TreeRowsAdd(a, b);
    NoRow();
    OneRow(MainLog(g));
    if AnchorOf(g).Some? {
      OneRow(AnchorLogs(g)[0]);
    }
    if TailOf(g).Some? {
      OneRow(TailLogs(g)[0]);
    }
  }

  lemma NoRow()
    ensures TreeRows([]) == []
  {
  }

  /** The rows of a group, explicitly. */
  lemma RowsOfGroup(g: Group)
    requires WellFormed(g)
    ensures g.SpendGroup? ==> |GroupRows(g)| == |g.ocs| > 0
    ensures g.SpendGroup? ==>
              forall i {:trigger GroupRows(g)[i]} :: 0 <= i < |g.ocs| ==>
                GroupRows(g)[i] == Single(g.start + i, g.ocs[i])
    ensures IsBatch(g) ==> GroupRows(g) == [Batch(g.s.start, g.s.subtreeRoot)]
    ensures g.RegistryGroup? || g.AcceptGroup? ==> GroupRows(g) == []
  {
    hide LogsOf;
    GroupRowsAre(g);
    if g.SpendGroup? {
      AppendRows(g.h, g.start, g.ocs, g.roots, |g.ocs|);
    } else if IsBatch(g) {
      OneRow(TreeLogs(g)[0]);
    }
  }

  function First(g: Group): nat {
    match g
    case SpendGroup(_, _, _, start, _, _, _, _, _, _) => start
    case BatchGroup(_, s, _, _, _, _) => s.start
    case PrivGroup(_, _, s, _, _, _, _, _) => s.start
    case _ => 0
  }

  function Width(g: Group): nat {
    match g
    case SpendGroup(_, _, _, _, ocs, _, _, _, _, _) => |ocs|
    case BatchGroup(_, _, _, _, _, _) => B
    case PrivGroup(_, _, _, _, _, _, _, _) => B
    case _ => 0
  }

  lemma FirstLog(g: Group)
    requires WellFormed(g) && (g.SpendGroup? || IsBatch(g))
    ensures |LogsOf(g)| > 0
    ensures g.SpendGroup? ==> LogsOf(g)[0].ev == Appended(g.start, g.ocs[0], g.roots[0])
    ensures IsBatch(g) ==> LogsOf(g)[0].ev == SubtreeAppended(g.s.start, g.s.subtreeRoot, g.s.root)
  {
    hide AnchorLogs, MainLog, TailLogs, TreeRows;
    if g.SpendGroup? {
      AppendRows(g.h, g.start, g.ocs, g.roots, |g.ocs|);
    }
  }

  lemma Span(base: seq<Row>, g: Group)
    requires WellFormed(g) && Truthful(base, LogsOf(g)) && (g.SpendGroup? || IsBatch(g))
    ensures NextOf(base) <= First(g) && NextOf(base + GroupRows(g)) == First(g) + Width(g)
  {
    hide LogsOf, Root, GroupRows;
    FirstLog(g);
    RowsOfGroup(g);
    PaddedIsBoundary(NextOf(base));
    assert InsertOk(base, LogsOf(g)[0]);
    var rows := GroupRows(g);
    assert (base + rows)[|base + rows| - 1] == rows[|rows| - 1];
  }

  lemma TruthfulGroup(gs: seq<Group>, n: nat)
    requires AllWellFormed(gs) && Truthful([], Flatten(gs)) && n < |gs|
    ensures Truthful(RowsUpTo(gs, n), LogsOf(gs[n]))
  {
    TruthfulBetween(gs, n, n + 1);
    assert gs[n..n + 1] == [gs[n]];
    FlattenOne(gs[n]);
  }

  predicate HasLeaves(g: Group) {
    g.SpendGroup? || IsBatch(g)
  }

  lemma Bounds(gs: seq<Group>, n: nat)
    requires AllWellFormed(gs) && Truthful([], Flatten(gs)) && n < |gs| && HasLeaves(gs[n])
    ensures NextOf(RowsUpTo(gs, n)) <= First(gs[n]) && NextOf(RowsUpTo(gs, n + 1)) == First(gs[n]) + Width(gs[n])
  {
    hide LogsOf, WellFormed, Truthful, Flatten, GroupRows, NextOf;
    TruthfulGroup(gs, n);
    Span(RowsUpTo(gs, n), gs[n]);
  }

  lemma ApartBySpans(g: Group, g': Group)
    requires HasLeaves(g) && HasLeaves(g') ==> First(g) + Width(g) <= First(g')
    ensures Apart(g, g') && Apart(g', g)
    ensures IsBatch(g) && IsBatch(g') ==> g.s.start != g'.s.start
  {
  }

  lemma GroupsApart(gs: seq<Group>, i: nat, j: nat)
    requires AllWellFormed(gs) && Truthful([], Flatten(gs)) && i < j < |gs|
    ensures Apart(gs[i], gs[j]) && Apart(gs[j], gs[i])
    ensures IsBatch(gs[i]) && IsBatch(gs[j]) ==> gs[i].s.start != gs[j].s.start
  {
    hide LogsOf, WellFormed, Truthful, Flatten, GroupRows, NextOf, RowsUpTo, Grown, TreeRows, Apart;
    if HasLeaves(gs[i]) && HasLeaves(gs[j]) {
      Bounds(gs, i);
      Bounds(gs, j);
      TruthfulBetween(gs, i + 1, j);
    }
    ApartBySpans(gs[i], gs[j]);
  }

  lemma SingleIsThere(rows: seq<Row>, k: nat)
    requires Grown(rows) && k < |rows| && rows[k].Single?
    ensures rows[k].leafIndex in Leaves(rows) && Leaves(rows)[rows[k].leafIndex] == rows[k].commitment
  {
    if k < |rows| - 1 {
      var init, last := rows[..|rows| - 1], rows[|rows| - 1];
      SingleIsThere(init, k);
      RowIsThere(init, k);
      PaddedIsBoundary(NextOf(init));
    }
  }

  lemma SpendGrounded(table: map<nat, Row>, t: M.State, g: Group, at: nat, i: nat)
    requires WellFormed(g) && g.SpendGroup? && T.Synced(table, t)
    requires at + |GroupRows(g)| <= |t.rows| && t.rows[at..at + |GroupRows(g)|] == GroupRows(g)
    requires g.start <= i < g.start + |g.ocs|
    ensures i in Leaves(t.rows) && Leaves(t.rows)[i] == g.ocs[i - g.start]
  {
    hide LogsOf, GroupRows, T.Synced, Leaves, Grown;
    CoherentOf(table, t);
    RowsOfGroup(g);
    assert t.rows[at + (i - g.start)] == GroupRows(g)[i - g.start];
    SingleIsThere(t.rows, at + (i - g.start));
  }

  lemma OwnStretch(gs: seq<Group>, n: nat, rows: seq<Row>)
    requires AllWellFormed(gs) && n < |gs| && RowsUpTo(gs, n + 1) <= rows
    ensures var at, own := |RowsUpTo(gs, n)|, GroupRows(gs[n]);
            at + |own| <= |rows| && rows[at..at + |own|] == own
  {
    hide GroupRows, WellFormed;
  }

  /** Once the frontier has passed a group, the tree has its inserts. */
  lemma GroundedIn(table: map<nat, Row>, t: M.State, gs: seq<Group>, n: nat)
    requires AllWellFormed(gs) && n < |gs| && T.Synced(table, t) && RowsUpTo(gs, n + 1) <= t.rows
    ensures Grounded(t, gs[n])
  {
    hide LogsOf, GroupRows, T.Synced, Leaves, Grown, WellFormed, Batches;
    var g, at := gs[n], |RowsUpTo(gs, n)|;
    OwnStretch(gs, n, t.rows);
    if g.SpendGroup? {
      forall i: nat | g.start <= i < g.start + |g.ocs|
        ensures i in Leaves(t.rows) && Leaves(t.rows)[i] == g.ocs[i - g.start]
      {
        SpendGrounded(table, t, g, at, i);
      }
    } else if IsBatch(g) {
      CoherentOf(table, t);
      RowsOfGroup(g);
      assert t.rows[at] == GroupRows(g)[0];
      RowIsThere(t.rows, at);
    }
  }
}
