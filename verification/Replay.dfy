/** Replays converge: applying a range of groups after any partial application of it, any number of
    times, ends where applying it once ends. */
module Replay {
  import opened Field
  import opened Merkle
  import opened Imt
  import opened Chain
  import opened Ingest
  import opened Correlation
  import M = Mirror
  import T = LeafTables

  // ---- pass 1 over a truthful log ----------------------------------------------------

  function RowsOf(l: Log): seq<Row> {
    match l.ev
    case Appended(i, leaf, _) => [Single(i, leaf)]
    case SubtreeAppended(start, subtreeRoot, _) => [Batch(start, subtreeRoot)]
    case _ => []
  }

  function TreeRows(logs: seq<Log>): seq<Row>
    decreases |logs|
  {
    if logs == [] then [] else RowsOf(logs[0]) + TreeRows(logs[1..])
  }

  /** Right index, right resulting root, room left. */
  ghost predicate InsertOk(base: seq<Row>, l: Log) {
    match l.ev
    case Appended(i, _, root) => i == NextOf(base) < Pow2(H) && Root(base + RowsOf(l)) == root
    case SubtreeAppended(start, _, root) => start == Padded(NextOf(base)) < Pow2(H) && Root(base + RowsOf(l)) == root
    case _ => true
  }

  /** The pool's inserts on top of `base`. */
  ghost predicate Truthful(base: seq<Row>, logs: seq<Log>)
    decreases |logs|
  {
    logs == [] || (InsertOk(base, logs[0]) && Truthful(base + RowsOf(logs[0]), logs[1..]))
  }

  /** A tree log either lands at the frontier or is found below it. */
  lemma InsertLands(table: map<nat, Row>, t: M.State, base: seq<Row>, l: Log)
    requires T.Synced(table, t) && t.rows == base && Truthful(base, [l])
    ensures var (t', ok) := TreeStep(t, l);
            && ok && T.Synced(table, t') && t'.rows == base + RowsOf(l)
            && t'.leaves == t.leaves && t'.filled == t.filled && t'.publicFilled == t.publicFilled
  {
    hide M.Coherent, M.LeafTable;
    CoherentOf(table, t);
    match l.ev {
      case Appended(i, leaf, root) =>
        T.AppendStaysSynced(table, t, i, leaf, root);
      case SubtreeAppended(start, subtreeRoot, root) =>
        PaddedIsBoundary(NextOf(base));
        T.AttachStaysSynced(table, t, start, subtreeRoot, root);
        T.FirstAttach(t, start, subtreeRoot, root);
      case _ =>
        assert base + [] == base;
    }
  }

  lemma CoherentOf(table: map<nat, Row>, t: M.State)
    requires T.Synced(table, t)
    ensures M.Coherent(t) && Grown(t.rows) && t.batchRoots == Batches(t.rows)
  {
  }

  lemma RowIsThere(rows: seq<Row>, k: nat)
    requires Grown(rows) && k < |rows|
    ensures rows[k].Single? ==> rows[k].leafIndex < NextOf(rows)
    ensures rows[k].Batch? ==>
              && rows[k].leafIndex < NextOf(rows) && Start(Block(rows[k].leafIndex)) == rows[k].leafIndex
              && Block(rows[k].leafIndex) in Batches(rows)
              && Batches(rows)[Block(rows[k].leafIndex)] == rows[k].batchRoot
  {
    var init, last := rows[..|rows| - 1], rows[|rows| - 1];
    PaddedIsBoundary(NextOf(init));
    BlockBounds(last.leafIndex);
    if k < |rows| - 1 {
      RowIsThere(init, k);
      RowsLieBelowFrontier(init);
      NewBatchIsNew(init, last);
    }
  }

  lemma NewBatchIsNew(init: seq<Row>, last: Row)
    requires Grown(init + [last])
    ensures last.Batch? ==> Block(last.leafIndex) !in Batches(init)
  {
    OneMore(init, last);
    RowsLieBelowFrontier(init);
    PaddedIsBoundary(NextOf(init));
    if last.Batch? {
      assert Block(last.leafIndex) in Batches(init) ==> Start(Block(last.leafIndex)) + B <= NextOf(init);
    }
  }

  lemma InsertIsThere(table: map<nat, Row>, t: M.State, k: nat, l: Log)
    requires T.Synced(table, t) && k < |t.rows| && RowsOf(l) == [t.rows[k]]
    ensures TreeStep(t, l) == (t, true)
  {
    hide M.LeafTable;
    CoherentOf(table, t);
    RowIsThere(t.rows, k);
    if l.ev.SubtreeAppended? {
      T.AttachReplayIsIdle(t, l.ev.start, l.ev.subtreeRoot, l.ev.root);
    }
  }

  function Max(a: nat, b: nat): nat {
    if a < b then b else a
  }

  /** Pass 1 from anywhere inside the range, or past it, ends at the further of the two points. */
  lemma {:induction false} Pass1Advances(table: map<nat, Row>, t: M.State, base: seq<Row>, logs: seq<Log>,
                                         all: seq<Row>, p: nat)
    requires T.Synced(table, t) && Truthful(base, logs) && TreeRows(logs) <= all && p <= |all|
    requires t.rows == base + all[..p]
    ensures var (t', ok) := Pass1(t, logs);
            && ok && T.Synced(table, t') && t'.rows == base + all[..Max(p, |TreeRows(logs)|)]
            && t'.leaves == t.leaves && t'.filled == t.filled && t'.publicFilled == t.publicFilled
    decreases |logs|
  {
    hide T.Synced, TreeStep, InsertOk;
    if logs != [] {
      var l, rest := logs[0], logs[1..];
      if RowsOf(l) == [] {
        QuietInsert(t, l);
        assert base + [] == base;
        Pass1Advances(table, t, base, rest, all, p);
      } else {
        var r := all[0];
        var base', all' := base + [r], all[1..];
        var end := Max(p, |TreeRows(logs)|);
        Shift(base, all, end);
        if p == 0 {
          assert Truthful(base + RowsOf(l), []);
          InsertLands(table, t, base, l);
          Pass1Advances(table, TreeStep(t, l).0, base', rest, all', 0);
        } else {
          Shift(base, all, p);
          InsertIsThere(table, t, |base|, l);
          Pass1Advances(table, t, base', rest, all', p - 1);
        }
      }
    }
  }

  lemma {:induction false} Pass1Adds(t: M.State, a: seq<Log>, b: seq<Log>)
    ensures Pass1(t, a + b) == if Pass1(t, a).1 then Pass1(Pass1(t, a).0, b) else Pass1(t, a)
    decreases |a|
  {
    hide TreeStep;
    if a == [] {
      assert a + b == b;
    } else {
      assert (a + b)[1..] == a[1..] + b;
      if TreeStep(t, a[0]).1 {
        Pass1Adds(TreeStep(t, a[0]).0, a[1..], b);
      }
    }
  }

  /** Pass 1 over inserts the tree already has leaves it as it is, buffers included. */
  lemma {:induction false} Pass1Again(table: map<nat, Row>, t: M.State, base: seq<Row>, logs: seq<Log>)
    requires T.Synced(table, t) && base + TreeRows(logs) <= t.rows
    ensures Pass1(t, logs) == (t, true)
    decreases |logs|
  {
    hide T.Synced, TreeStep;
    if logs != [] {
      var l, rest := logs[0], logs[1..];
      if RowsOf(l) == [] {
        QuietInsert(t, l);
        Pass1Again(table, t, base, rest);
      } else {
        assert t.rows[|base|] == RowsOf(l)[0] && RowsOf(l) == [t.rows[|base|]];
        InsertIsThere(table, t, |base|, l);
        assert base + (RowsOf(l) + TreeRows(rest)) == base + RowsOf(l) + TreeRows(rest);
        Pass1Again(table, t, base + RowsOf(l), rest);
      }
    }
  }

  lemma Shift(base: seq<Row>, all: seq<Row>, k: nat)
    requires 0 < k <= |all|
    ensures base + all[..k] == base + [all[0]] + all[1..][..k - 1]
    ensures (base + all[..k])[|base|] == all[0]
  {
  }

  lemma QuietInsert(t: M.State, l: Log)
    requires RowsOf(l) == []
    ensures TreeStep(t, l) == (t, true)
  {
  }
}
