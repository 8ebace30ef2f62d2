/** The durable side of the mirror: the leaves table, insert-or-ignore by leaf index. */
module LeafTables {
  import opened Field
  import opened Imt
  import opened Tables
  import M = Mirror

  function Stage(t: map<nat, Row>, rows: seq<Row>): map<nat, Row> {
    if rows == [] then t
    else
      var r := rows[|rows| - 1];
      InsertOrIgnore(Stage(t, rows[..|rows| - 1]), r.leafIndex, r)
  }

  /** The durable rows plus the delta buffer are the tree's rows, and the delta holds nothing else. */
  ghost predicate Synced(t: map<nat, Row>, m: M.State) {
    && M.Coherent(m)
    && Stage(t, m.pending) == M.LeafTable(m)
    && PendingBelow(m.pending, M.LeafTable(m))
  }

  ghost predicate PendingBelow(rows: seq<Row>, table: map<nat, Row>) {
    forall j :: 0 <= j < |rows| ==> rows[j].leafIndex in table && table[rows[j].leafIndex] == rows[j]
  }

  lemma StageOneMore(t: map<nat, Row>, rows: seq<Row>, r: Row)
    ensures Stage(t, rows + [r]) == InsertOrIgnore(Stage(t, rows), r.leafIndex, r)
  {
    assert (rows + [r])[..|rows|] == rows;
  }

  lemma {:induction false} RestageIsIdle(table: map<nat, Row>, rows: seq<Row>)
    requires PendingBelow(rows, table)
    ensures Stage(table, rows) == table
  {
    if rows != [] {
      RestageIsIdle(table, rows[..|rows| - 1]);
    }
  }

  function RowAt(m: M.State, i: nat): Row
    requires M.HasRow(m, i)
  {
    if Block(i) in m.batchRoots then Batch(i, m.batchRoots[Block(i)]) else Single(i, m.leaves[i])
  }

  lemma TableHas(m: M.State, i: nat)
    requires M.Coherent(m)
    ensures i in M.LeafTable(m) <==> M.HasRow(m, i)
    ensures M.HasRow(m, i) ==> M.LeafTable(m)[i] == RowAt(m, i)
  {
    RowsLieBelowFrontier(m.rows);
    if Block(i) in m.batchRoots && i == Start(Block(i)) {
      assert Start(Block(i)) + B <= NextOf(m.rows);
      BlockBounds(i);
    }
  }

  /** A step that adds no row: an append not yet recorded, a fill, a replay. */
  lemma SameTable(t: map<nat, Row>, m: M.State, m': M.State)
    requires Synced(t, m) && M.Coherent(m') && m'.pending == m.pending
    requires forall i: nat {:trigger M.HasRow(m', i)} ::
               (M.HasRow(m', i) <==> M.HasRow(m, i)) && (M.HasRow(m, i) ==> RowAt(m', i) == RowAt(m, i))
    ensures Synced(t, m')
  {
    hide M.Coherent, M.LeafTable, M.HasRow, RowAt;
    TablesAgree(m, m');
  }

  lemma TablesAgree(m: M.State, m': M.State)
    requires M.Coherent(m) && M.Coherent(m')
    requires forall i: nat {:trigger M.HasRow(m', i)} ::
               (M.HasRow(m', i) <==> M.HasRow(m, i)) && (M.HasRow(m, i) ==> RowAt(m', i) == RowAt(m, i))
    ensures M.LeafTable(m') == M.LeafTable(m)
  {
    hide M.Coherent, M.LeafTable, RowAt, M.HasRow;
    forall i: nat
      ensures i in M.LeafTable(m') <==> i in M.LeafTable(m)
      ensures i in M.LeafTable(m) ==> M.LeafTable(m')[i] == M.LeafTable(m)[i]
    {
      TableHas(m, i);
      TableHas(m', i);
    }
  }

  /** A step that adds one row, buffered. */
  lemma OneMoreRow(t: map<nat, Row>, m: M.State, m': M.State, r: Row)
    requires Synced(t, m) && M.Coherent(m') && m'.pending == m.pending + [r]
    requires !M.HasRow(m, r.leafIndex)
    requires forall i: nat {:trigger M.HasRow(m', i)} ::
               && (M.HasRow(m', i) <==> M.HasRow(m, i) || i == r.leafIndex)
               && (M.HasRow(m', i) ==> RowAt(m', i) == if i == r.leafIndex then r else RowAt(m, i))
    ensures Synced(t, m')
  {
    hide M.Coherent, M.LeafTable, M.HasRow, RowAt;
    StageOneMore(t, m.pending, r);
    TableGrows(m, m', r);
    TableHas(m, r.leafIndex);
  }

  lemma TableGrows(m: M.State, m': M.State, r: Row)
    requires M.Coherent(m) && M.Coherent(m') && !M.HasRow(m, r.leafIndex)
    requires forall i: nat {:trigger M.HasRow(m', i)} ::
               && (M.HasRow(m', i) <==> M.HasRow(m, i) || i == r.leafIndex)
               && (M.HasRow(m', i) ==> RowAt(m', i) == if i == r.leafIndex then r else RowAt(m, i))
    ensures M.LeafTable(m') == M.LeafTable(m)[r.leafIndex := r]
  {
    hide M.Coherent, M.LeafTable, RowAt, M.HasRow;
    var want := M.LeafTable(m)[r.leafIndex := r];
    forall i: nat
      ensures i in M.LeafTable(m') <==> i in want
      ensures i in want ==> M.LeafTable(m')[i] == want[i]
    {
      TableHas(m, i);
      TableHas(m', i);
    }
  }

  // ---- the mirror's steps ------------------------------------------------------------

  lemma AppendStaysSynced(t: map<nat, Row>, m: M.State, leafIndex: nat, leaf: Felt, root: Felt)
    requires Synced(t, m)
    ensures Synced(t, M.ApplyAppend(m, leafIndex, leaf, root).0)
  {
    hide M.Coherent, M.LeafTable;
    M.AppendKeeps(m, leafIndex, leaf, root);
    var m' := M.ApplyAppend(m, leafIndex, leaf, root).0;
    assert m'.batchRoots == m.batchRoots && m'.leaves == m.leaves && m'.pending == m.pending;
    SameTable(t, m, m');
  }

  /** Replaying an attach already in the tree changes nothing. */
  lemma AttachReplayIsIdle(m: M.State, start: nat, subtreeRoot: Felt, root: Felt)
    requires M.Coherent(m) && M.AttachOk(m, start, subtreeRoot, root) && start < NextOf(m.rows)
    ensures M.ApplyAttach(m, start, subtreeRoot, root) == (m, true)
  {
    if Block(start) !in m.filled {
      M.WipeIsIdle(m, start);
    }
    assert m.batchRoots[Block(start) := subtreeRoot] == m.batchRoots;
  }

  lemma AttachStaysSynced(t: map<nat, Row>, m: M.State, start: nat, subtreeRoot: Felt, root: Felt)
    requires Synced(t, m) && M.AttachOk(m, start, subtreeRoot, root)
    ensures Synced(t, M.ApplyAttach(m, start, subtreeRoot, root).0)
  {
    var m' := M.ApplyAttach(m, start, subtreeRoot, root).0;
    if start < NextOf(m.rows) {
      AttachReplayIsIdle(m, start, subtreeRoot, root);
    } else {
      M.AttachKeeps(m, start, subtreeRoot, root);
      FirstAttach(m, start, subtreeRoot, root);
      OneMoreRow(t, m, m', Batch(start, subtreeRoot));
    }
  }

  lemma FirstAttach(m: M.State, start: nat, subtreeRoot: Felt, root: Felt)
    requires M.Coherent(m) && M.AttachOk(m, start, subtreeRoot, root) && start >= NextOf(m.rows)
    ensures var m' := M.ApplyAttach(m, start, subtreeRoot, root).0; var r := Batch(start, subtreeRoot);
            && m'.pending == m.pending + [r] && m'.leaves == m.leaves
            && m'.filled == m.filled && m'.publicFilled == m.publicFilled && m'.rows == m.rows + [r]
            && !M.HasRow(m, start)
            && (forall i: nat {:trigger M.HasRow(m', i)} ::
                  && (M.HasRow(m', i) <==> M.HasRow(m, i) || i == start)
                  && (M.HasRow(m', i) ==> RowAt(m', i) == if i == start then r else RowAt(m, i)))
  {
    M.FreshBlock(m, start);
    FreshIsUnfilled(m, start);
    M.WipeIsIdle(m, start);
  }

  lemma FreshIsUnfilled(m: M.State, start: nat)
    requires M.Coherent(m) && Block(start) !in m.batchRoots
    ensures Block(start) !in m.filled
  {
  }

  lemma RecordStaysSynced(t: map<nat, Row>, m: M.State, leafIndex: nat, leaf: Felt)
    requires Synced(t, m) && leafIndex in Leaves(m.rows) && Leaves(m.rows)[leafIndex] == leaf
    ensures Synced(t, M.RecordLeaf(m, leafIndex, leaf))
  {
    hide M.LeafTable;
    M.RecordKeeps(m, leafIndex, leaf);
    RowsLieBelowFrontier(m.rows);
    var m' := M.RecordLeaf(m, leafIndex, leaf);
    if leafIndex in m.leaves {
      SameTable(t, m, m');
    } else {
      OneMoreRow(t, m, m', Single(leafIndex, leaf));
    }
  }

  lemma FillStaysSynced(t: map<nat, Row>, m: M.State, start: nat, run: seq<Felt>, source: M.Source)
    requires Synced(t, m) && M.FillOk(m, start, run)
    ensures Synced(t, M.FillBatch(m, start, run, source))
  {
    hide M.LeafTable;
    M.FillKeeps(m, start, run, source);
    var m' := M.FillBatch(m, start, run, source);
    forall i: nat
      ensures (M.HasRow(m', i) <==> M.HasRow(m, i)) && (M.HasRow(m, i) ==> RowAt(m', i) == RowAt(m, i))
    {
      M.NotInRun(start, i);
    }
    SameTable(t, m, m');
  }

  // ---- what an unrecorded leaf costs -------------------------------------------------

  lemma {:induction false} SelectedIsARow(t: map<nat, Row>, n: nat, r: Row)
    requires r in OrderBy(t, n)
    ensures exists i :: i in t && t[i] == r
  {
    if r in OrderBy(t, n - 1) {
      SelectedIsARow(t, n - 1, r);
    }
  }

  lemma {:induction false} LeafHasARow(rows: seq<Row>, i: nat)
    requires i in Leaves(rows)
    ensures Single(i, Leaves(rows)[i]) in rows
  {
    var last := |rows| - 1;
    if rows[last].Batch? || rows[last].leafIndex != i {
      LeafHasARow(rows[..last], i);
    }
  }

  /** An op nobody decoded leaves an appended leaf without a record. The durable rows then rebuild
      the run exactly when there is no such leaf. */
  lemma RowsRebuildTheRunIff(m: M.State)
    requires M.Coherent(m)
    ensures SelectOrdered(M.LeafTable(m)) == m.rows <==> M.AllRecorded(m)
  {
    hide M.LeafTable;
    if M.AllRecorded(m) {
      M.LeafTableIsRowTable(m);
      RowTableBelow(m.rows);
      SelectIsOrderBy(M.LeafTable(m), NextOf(m.rows));
      OrderedRowsAreTheRun(m.rows);
    } else if SelectOrdered(M.LeafTable(m)) == m.rows {
      var i :| i in Leaves(m.rows) && i !in m.leaves;
      LeafHasARow(m.rows, i);
      var r := Single(i, Leaves(m.rows)[i]);
      SelectedIsARow(M.LeafTable(m), Above(M.LeafTable(m).Keys), r);
      var k :| k in M.LeafTable(m) && M.LeafTable(m)[k] == r;
      TableHas(m, k);
      assert false;
    }
  }
}
