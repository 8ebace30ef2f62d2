/** The premises of the main results are met by real chains: any balanced list of registrations,
    removals, consumer deposits and batches that fits the tree, in any order, is an honest chain. */
module Premises {
  import opened Field
  import opened Merkle
  import opened Imt
  import opened Chain
  import opened Ingest
  import opened Correlation
  import opened Effects
  import opened Replay
  import opened Durable
  import opened Runs
  import opened Watch
  import opened Machine
  import opened Gated
  import opened Poll
  import D = Disclosure
  import F = Feed
  import K = Kem
  import L = Ledger
  import R = Registry

  // ---- one more group on a chain -----------------------------------------------------

  lemma {:induction false} CleanOfPrefix(gs: seq<Group>, g: Group, n: nat)
    requires AllWellFormed(gs) && WellFormed(g) && n <= |gs|
    ensures AllWellFormed(gs + [g]) && Clean(gs + [g], n) == Clean(gs, n)
  {
    hide GroupEffect, WellFormed, Inserted;
    if n > 0 {
      CleanOfPrefix(gs, g, n - 1);
      assert (gs + [g])[n - 1] == gs[n - 1];
    }
  }

  lemma LogsGrow(gs: seq<Group>, g: Group)
    requires AllWellFormed(gs) && WellFormed(g)
    requires Truthful([], Flatten(gs)) && Truthful(RowsUpTo(gs, |gs|), LogsOf(g))
    ensures AllWellFormed(gs + [g]) && Truthful([], Flatten(gs + [g]))
  {
    hide LogsOf, WellFormed, Truthful, RowsUpTo, TreeRows;
    FlattenAdds(gs, [g]);
    FlattenOne(g);
    RowsUpToIsFlat(gs, |gs|);
    assert gs[..|gs|] == gs;
    assert [] + TreeRows(Flatten(gs)) == TreeRows(Flatten(gs));
    TruthfulJoins([], Flatten(gs), LogsOf(g));
  }

  lemma SameAnnouncing(gs: seq<Group>, g: Group)
    requires g.SpendGroup? ==> g.announcement.None?
    ensures Announcing(gs + [g]) == Announcing(gs)
  {
    var all := gs + [g];
    forall tx
      ensures tx in Announcing(gs) <==> tx in Announcing(all)
    {
      if tx in Announcing(gs) {
        var i :| 0 <= i < |gs| && gs[i].SpendGroup? && gs[i].announcement.Some? && gs[i].h.txHash == tx;
        assert all[i] == gs[i];
      }
      if tx in Announcing(all) {
        var i :| 0 <= i < |all| && all[i].SpendGroup? && all[i].announcement.Some? && all[i].h.txHash == tx;
        assert gs[i] == all[i];
      }
    }
  }

  lemma DatedGrow(gs: seq<Group>, g: Group)
    requires OneVintage(gs) && (g.SpendGroup? ==> g.announcement.None? && !Withdrawal(g.kind))
    ensures OneVintage(gs + [g])
  {
    hide Announcing;
    SameAnnouncing(gs, g);
  }

  /** A chain stays one when the next group is new, tells the truth about the tree and finds its
      handler content. */
  lemma ChainGrows(gs: seq<Group>, g: Group)
    requires WellFormed(g) && ChainOk(gs) && OneVintage(gs + [g])
    requires forall i :: 0 <= i < |gs| ==> GroupKey(gs[i]) != GroupKey(g)
    requires Truthful(RowsUpTo(gs, |gs|), LogsOf(g))
    requires GroupOk(Inserted(Clean(gs, |gs|), g), g)
    ensures ChainOk(gs + [g])
  {
    hide LogsOf, WellFormed, Truthful, RowsUpTo, GroupKey, GroupOk, Clean, Flatten, Pass1, OneVintage;
    LogsGrow(gs, g);
    var all := gs + [g];
    forall n | 0 <= n < |all|
      ensures GroupOk(Inserted(Clean(all, n), all[n]), all[n])
    {
      CleanOfPrefix(gs, g, n);
    }
  }

  lemma EntitledGrow(gs: seq<Group>, g: Group)
    requires AllWellFormed(gs) && WellFormed(g)
    requires AllEntitled(gs) && Entitled(Clean(gs, |gs|), g)
    ensures AllWellFormed(gs + [g]) && AllEntitled(gs + [g])
  {
    hide WellFormed, Entitled, Clean;
    var all := gs + [g];
    forall n | 0 <= n < |all|
      ensures Entitled(Clean(all, n), all[n])
    {
      CleanOfPrefix(gs, g, n);
    }
  }

  // ---- a chain for any list of ops ---------------------------------------------------

  /** What a consumer module does, and the pool to it. */
  datatype Op =
    | Register(a: Address)
    | Remove(a: Address)
    | Deposit(a: Address, x: Felt, y: Felt)
    | Block(a: Address, subtreeRoot: Felt)

  datatype Sent = Sent(tx: nat, block: nat, op: Op)

  function RowsAfter(base: seq<Row>, op: Op): seq<Row> {
    match op
    case Deposit(_, x, y) => Append(Append(base, x), y)
    case Block(_, subtreeRoot) => Attach(base, subtreeRoot)
    case _ => base
  }

  function RowsFor(ops: seq<Sent>): seq<Row> {
    if ops == [] then [] else RowsAfter(RowsFor(ops[..|ops| - 1]), ops[|ops| - 1].op)
  }

  function ListedAfter(listed: set<Address>, op: Op): set<Address> {
    match op
    case Register(a) => listed + {a}
    case Remove(a) => listed - {a}
    case _ => listed
  }

  /** The modules registered after `ops`. */
  function Listed(ops: seq<Sent>): set<Address> {
    if ops == [] then {} else ListedAfter(Listed(ops[..|ops| - 1]), ops[|ops| - 1].op)
  }

  /** The pool takes this op: the tree has room, the registry stream stays balanced, and only a
      registered module acts. */
  predicate Accepted(base: seq<Row>, listed: set<Address>, op: Op) {
    match op
    case Register(a) => a != POOL && a !in listed
    case Remove(a) => a in listed
    case Deposit(a, _, _) => a in listed && NextOf(base) + 1 < Pow2(H)
    case Block(a, _) => a in listed && Padded(NextOf(base)) < Pow2(H)
  }

  predicate Playable(ops: seq<Sent>) {
    ops == [] ||
    var init := ops[..|ops| - 1];
    Playable(init) && Accepted(RowsFor(init), Listed(init), ops[|ops| - 1].op)
  }

  /** Ops of one transaction are told apart by what they insert. */
  predicate ToldApart(ops: seq<Sent>) {
    forall i, j :: 0 <= i < j < |ops| && ops[i].tx == ops[j].tx ==>
      && (ops[i].op.Deposit? && ops[j].op.Deposit? ==> ops[i].op.x != ops[j].op.x)
      && (ops[i].op.Block? && ops[j].op.Block? ==> ops[i].op.subtreeRoot != ops[j].op.subtreeRoot)
  }

  /** The logs of op `n` start at index 8 n. */
  function GroupFor(base: seq<Row>, n: nat, s: Sent): Group {
    var h := Head(s.tx, 8 * n, s.block, 0);
    match s.op
    case Register(a) => RegistryGroup(h, a, true)
    case Remove(a) => RegistryGroup(h, a, false)
    case Deposit(a, x, y) =>
      SpendGroup(h, a, F.DepositPriv, NextOf(base), [x, y], [],
                 [Root(Append(base, x)), Root(Append(Append(base, x), y))], L.NoKemKey, None, 0)
    case Block(a, subtreeRoot) =>
      PrivGroup(h, a, Subtree(Padded(NextOf(base)), subtreeRoot, Root(Attach(base, subtreeRoot))), 0, 0, [], None, 0)
  }

  function ChainFor(ops: seq<Sent>): (gs: seq<Group>)
    ensures |gs| == |ops| && AllWellFormed(gs)
  {
    if ops == [] then []
    else
      var init := ops[..|ops| - 1];
      ChainFor(init) + [GroupFor(RowsFor(init), |init|, ops[|ops| - 1])]
  }

  lemma TwoAppends(base: seq<Row>, h: Head, a: Felt, b: Felt, ra: Felt, rb: Felt)
    requires NextOf(base) + 1 < Pow2(H) && Root(Append(base, a)) == ra && Root(Append(Append(base, a), b)) == rb
    ensures var logs := AppendLogs(h, NextOf(base), [a, b], [ra, rb], 2);
            Truthful(base, logs) && base + TreeRows(logs) == Append(Append(base, a), b)
  {
    hide Root;
    var s := NextOf(base);
    var logs := AppendLogs(h, s, [a, b], [ra, rb], 2);
    assert AppendLogs(h, s, [a, b], [ra, rb], 1) == [Emit(h, 0, POOL, Appended(s, a, ra))];
    assert logs == [Emit(h, 0, POOL, Appended(s, a, ra)), Emit(h, 1, POOL, Appended(s + 1, b, rb))];
    OneMore(base, Single(s, a));
    var first, second := logs[..1], logs[1..];
    assert first == [logs[0]] && second == [logs[1]];
    assert Truthful(base, first) && Truthful(Append(base, a), second);
    OneRow(logs[0]);
    OneRow(logs[1]);
    TruthfulJoins(base, first, second);
    TreeRowsAdd(first, second);
    assert logs == first + second;
  }

  lemma QuietTail(base: seq<Row>, logs: seq<Log>)
    requires forall i :: 0 <= i < |logs| ==> !logs[i].ev.Appended? && !logs[i].ev.SubtreeAppended?
    ensures Truthful(base, logs) && TreeRows(logs) == []
    decreases |logs|
  {
    if logs != [] {
      assert base + [] == base;
      QuietTail(base, logs[1..]);
    }
  }

  lemma OpTellsTruth(base: seq<Row>, listed: set<Address>, n: nat, s: Sent)
    requires Accepted(base, listed, s.op)
    ensures var g := GroupFor(base, n, s);
            WellFormed(g) && Truthful(base, LogsOf(g)) && base + GroupRows(g) == RowsAfter(base, s.op)
  {
    hide Root, TreeRows, Truthful;
    var g := GroupFor(base, n, s);
    var tail := AnchorLogs(g) + [MainLog(g)] + TailLogs(g);
    assert LogsOf(g) == TreeLogs(g) + tail;
    TreeTellsTruth(base, listed, n, s);
    QuietTail(base + TreeRows(TreeLogs(g)), tail);
    TruthfulJoins(base, TreeLogs(g), tail);
    GroupRowsAre(g);
  }

  lemma TreeTellsTruth(base: seq<Row>, listed: set<Address>, n: nat, s: Sent)
    requires Accepted(base, listed, s.op)
    ensures var g := GroupFor(base, n, s);
            WellFormed(g) && Truthful(base, TreeLogs(g)) && base + TreeRows(TreeLogs(g)) == RowsAfter(base, s.op)
  {
    hide Root;
    var g := GroupFor(base, n, s);
    match s.op {
      case Deposit(_, x, y) => TwoAppends(base, g.h, x, y, g.roots[0], g.roots[1]);
      case Block(_, _) => OneRow(TreeLogs(g)[0]);
      case _ => assert base + [] == base;
    }
  }

  /** The registry knows exactly the listed modules as registered. */
  ghost predicate Lists(m: Mem, listed: set<Address>) {
    forall a :: R.IsRegistered(m.modules, a) <==> a in listed
  }

  lemma OpIsOk(m: Mem, base: seq<Row>, listed: set<Address>, n: nat, s: Sent)
    requires K.Valid(m.kem) && WellFormed(GroupFor(base, n, s)) && Accepted(base, listed, s.op) && Lists(m, listed)
    requires POOL !in listed
    requires GroupKey(GroupFor(base, n, s)) !in m.modules.seen
    ensures var g := GroupFor(base, n, s);
            && GroupOk(m, g) && Entitled(m, g)
            && Lists(GroupEffect(m, g).0, ListedAfter(listed, s.op))
  {
    hide Root, RecordPairs, F.AddEvent, F.AddNullifiers, D.VerifyConsumerDisclosure, PrivDraft, SpentDraft;
    assert forall a :: R.IsKnown(m.modules, a) <== R.IsRegistered(m.modules, a);
  }

  lemma {:induction false} ChainForShape(ops: seq<Sent>)
    ensures Playable(ops) ==> POOL !in Listed(ops)
    ensures forall i :: 0 <= i < |ops| ==> ChainFor(ops)[i] == GroupFor(RowsFor(ops[..i]), i, ops[i])
  {
    hide Root, GroupFor;
    if ops != [] {
      var init := ops[..|ops| - 1];
      ChainForShape(init);
      forall i | 0 <= i < |ops|
        ensures ChainFor(ops)[i] == GroupFor(RowsFor(ops[..i]), i, ops[i])
      {
        if i < |init| {
          assert ops[..i] == init[..i];
        }
      }
    }
  }

  /** Any balanced list of registrations, removals, consumer deposits and batches that fits the tree is
      a chain every handler accepts, whose log inserts exactly its leaves and batches. */
  lemma {:induction false} AnyOpsAreAChain(ops: seq<Sent>)
    requires Playable(ops)
    ensures var gs := ChainFor(ops);
            && ChainOk(gs) && AllEntitled(gs) && RowsUpTo(gs, |gs|) == RowsFor(ops)
            && Lists(Clean(gs, |gs|), Listed(ops))
  {
    hide Root, GroupOk, GroupEffect, GroupRows, WellFormed, LogsOf, ChainOk, Truthful, GroupFor, Inserted, Accepted,
      Entitled, Lists;
    ChainForShape(ops);
    if ops == [] {
      NothingYet();
    } else {
      var init := ops[..|ops| - 1];
      AnyOpsAreAChain(init);
      ChainForShape(init);
      OneMoreOp(init, ops[|ops| - 1]);
    }
  }

  lemma NothingYet()
    ensures ChainOk([]) && AllEntitled([]) && Lists(Clean([], 0), {})
  {
    assert AllWellFormed([]);
  }

  lemma KeysDiffer(base: seq<Row>, i: nat, s: Sent, base': seq<Row>, j: nat, s': Sent)
    requires i < j && WellFormed(GroupFor(base, i, s)) && WellFormed(GroupFor(base', j, s'))
    ensures GroupKey(GroupFor(base, i, s)) != GroupKey(GroupFor(base', j, s'))
  {
    hide Root;
    KeyIs(base, i, s);
    KeyIs(base', j, s');
  }

  lemma KeyIs(base: seq<Row>, n: nat, s: Sent)
    requires WellFormed(GroupFor(base, n, s))
    ensures 8 * n <= GroupKey(GroupFor(base, n, s)).logIndex <= 8 * n + 3
  {
    hide Root;
    var g := GroupFor(base, n, s);
    if g.SpendGroup? {
      AppendLogsQuiet(g.h, g.start, g.ocs, g.roots, 2);
    }
  }

  lemma NewKey(init: seq<Sent>, s: Sent)
    requires AllWellFormed(ChainFor(init)) && WellFormed(GroupFor(RowsFor(init), |init|, s))
    requires |ChainFor(init)| == |init|
    requires forall i :: 0 <= i < |init| ==> ChainFor(init)[i] == GroupFor(RowsFor(init[..i]), i, init[i])
    ensures forall i :: 0 <= i < |init| ==> GroupKey(ChainFor(init)[i]) != GroupKey(GroupFor(RowsFor(init), |init|, s))
  {
    hide WellFormed, GroupFor, GroupKey, RowsFor, ChainFor;
    forall i | 0 <= i < |init|
      ensures GroupKey(ChainFor(init)[i]) != GroupKey(GroupFor(RowsFor(init), |init|, s))
    {
      assert WellFormed(ChainFor(init)[i]);
      KeysDiffer(RowsFor(init[..i]), i, init[i], RowsFor(init), |init|, s);
    }
  }

  lemma OneMoreOp(init: seq<Sent>, s: Sent)
    requires Playable(init) && Accepted(RowsFor(init), Listed(init), s.op)
    requires var gs := ChainFor(init);
             && |gs| == |init| && POOL !in Listed(init)
             && ChainOk(gs) && AllEntitled(gs) && RowsUpTo(gs, |gs|) == RowsFor(init)
             && Lists(Clean(gs, |gs|), Listed(init))
    requires forall i :: 0 <= i < |init| ==> ChainFor(init)[i] == GroupFor(RowsFor(init[..i]), i, init[i])
    ensures var gs' := ChainFor(init) + [GroupFor(RowsFor(init), |init|, s)];
            && ChainOk(gs') && AllEntitled(gs') && RowsUpTo(gs', |gs'|) == RowsAfter(RowsFor(init), s.op)
            && Lists(Clean(gs', |gs'|), Listed(init + [s]))
  {
    hide Root, GroupEffect, GroupRows, WellFormed, LogsOf, Truthful, GroupOk, Entitled, Lists, Accepted, GroupFor,
      GroupKey, OneVintage, AllEntitled, Pass1, Clean, RowsUpTo, Listed, RowsFor, Playable, Inserted;
    var gs, base, n := ChainFor(init), RowsFor(init), |init|;
    var g := GroupFor(base, n, s);
    OpTellsTruth(base, Listed(init), n, s);
    NewKey(init, s);
    var m := Inserted(Clean(gs, n), g);
    NewKeyIsUnseen(gs, g);
    InsertedLists(Clean(gs, n), g, Listed(init));
    OpIsOk(m, base, Listed(init), n, s);
    InsertedEntitled(Clean(gs, n), g);
    NotAWithdrawal(base, n, s);
    DatedGrow(gs, g);
    ChainGrows(gs, g);
    EntitledGrow(gs, g);
    OneGroupLater(gs, g);
    ListedGrows(init, s);
  }

  lemma ListedGrows(init: seq<Sent>, s: Sent)
    ensures Listed(init + [s]) == ListedAfter(Listed(init), s.op)
  {
    assert (init + [s])[..|init|] == init;
  }

  lemma OneGroupLater(gs: seq<Group>, g: Group)
    requires AllWellFormed(gs) && WellFormed(g)
    ensures var all, n := gs + [g], |gs|;
            && AllWellFormed(all) && Clean(all, n + 1) == GroupEffect(Inserted(Clean(gs, n), g), g).0
            && RowsUpTo(all, n + 1) == RowsUpTo(gs, n) + GroupRows(g)
  {
    hide WellFormed, GroupEffect, Inserted, GroupRows;
    CleanOfPrefix(gs, g, |gs|);
    SameRows(gs, g, |gs|);
  }

  lemma NewKeyIsUnseen(gs: seq<Group>, g: Group)
    requires AllWellFormed(gs) && WellFormed(g)
    requires ChainOk(gs) && forall i :: 0 <= i < |gs| ==> GroupKey(gs[i]) != GroupKey(g)
    ensures GroupKey(g) !in Clean(gs, |gs|).modules.seen
  {
    hide WellFormed, ChainOk, GroupKey, Clean, Synced, RowsUpTo;
    CleanIsSynced(gs, |gs|);
  }

  lemma InsertedLists(m: Mem, g: Group, listed: set<Address>)
    requires WellFormed(g) && Lists(m, listed)
    ensures Lists(Inserted(m, g), listed) && Inserted(m, g).kem == m.kem && Inserted(m, g).modules == m.modules
  {
  }

  lemma InsertedEntitled(m: Mem, g: Group)
    requires WellFormed(g) && Entitled(Inserted(m, g), g)
    ensures Entitled(m, g)
  {
  }

  lemma NotAWithdrawal(base: seq<Row>, n: nat, s: Sent)
    ensures var g := GroupFor(base, n, s); g.SpendGroup? ==> g.announcement.None? && !Withdrawal(g.kind)
  {
  }

  lemma {:induction false} SameRows(gs: seq<Group>, g: Group, n: nat)
    requires AllWellFormed(gs) && WellFormed(g) && n <= |gs|
    ensures AllWellFormed(gs + [g]) && RowsUpTo(gs + [g], n) == RowsUpTo(gs, n)
  {
    hide WellFormed, GroupRows;
    if n > 0 {
      SameRows(gs, g, n - 1);
      assert (gs + [g])[n - 1] == gs[n - 1];
    }
  }

  lemma ToldApartTells(base: seq<Row>, i: nat, s: Sent, base': seq<Row>, j: nat, s': Sent)
    ensures var g, g' := GroupFor(base, i, s), GroupFor(base', j, s');
            && g.h.txHash == s.tx && g'.h.txHash == s'.tx
            && (g.SpendGroup? && g'.SpendGroup? ==>
                s.op.Deposit? && s'.op.Deposit? && g.ocs[0] == s.op.x && g'.ocs[0] == s'.op.x)
            && (IsBatch(g) && IsBatch(g') ==>
                  && s.op.Block? && s'.op.Block?
                  && g.s.subtreeRoot == s.op.subtreeRoot && g'.s.subtreeRoot == s'.op.subtreeRoot)
  {
    hide Root;
  }

  lemma ToldApartIsDistinguishable(ops: seq<Sent>)
    requires ToldApart(ops)
    ensures Distinguishable(ChainFor(ops))
  {
    hide Root, RowsFor, GroupFor, ChainFor;
    ChainForShape(ops);
    var gs := ChainFor(ops);
    forall i, j | 0 <= i < j < |gs| && gs[i].h.txHash == gs[j].h.txHash
      ensures gs[i].SpendGroup? && gs[j].SpendGroup? ==> gs[i].ocs[0] != gs[j].ocs[0]
      ensures IsBatch(gs[i]) && IsBatch(gs[j]) ==> gs[i].s.subtreeRoot != gs[j].s.subtreeRoot
    {
      ToldApartTells(RowsFor(ops[..i]), i, ops[i], RowsFor(ops[..j]), j, ops[j]);
      assert WellFormed(gs[i]) && WellFormed(gs[j]);
    }
  }

  /** And an honest one, if the ops of each transaction can be told apart. */
  lemma ToldApartIsHonest(ops: seq<Sent>)
    requires Playable(ops) && ToldApart(ops)
    ensures Honest(ChainFor(ops))
  {
    hide Root, WellFormed, ChainOk, AllEntitled, Distinguishable, RowsFor, ChainFor, Lists;
    AnyOpsAreAChain(ops);
    ToldApartIsDistinguishable(ops);
  }
}
