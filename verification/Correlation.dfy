/** Pass 2 gives every op its own leaves: over any concatenation of well-formed op groups the queues
    hand each op exactly the inserts of its own group, nothing throws and nothing is left over. */
module Correlation {
  import opened Field
  import opened Chain
  import opened Ingest
  import F = Feed
  import K = Kem
  import L = Ledger
  import R = Registry

  // ---- op groups: what one op of the pool or a module emits --------------------------

  datatype Head = Head(txHash: nat, at: nat, blockNumber: nat, timestamp: nat)

  datatype Group =
    | SpendGroup(h: Head, emitter: Address, kind: F.EventKind, start: nat, ocs: seq<Felt>, nfs: seq<Felt>,
                 roots: seq<Felt>, envelope: L.Envelope, announcement: Option<Event>, payload: nat)
    | BatchGroup(h: Head, s: Subtree, nullifier: Felt, disclosureHash: Felt, published: Option<Event>, payload: nat)
    | PrivGroup(h: Head, emitter: Address, s: Subtree, nullifier: Felt, disclosureHash: Felt, chunkHashes: seq<int>,
                published: Option<Event>, payload: nat)
    | RegistryGroup(h: Head, moduleAddr: Address, registered: bool)
    | AcceptGroup(h: Head, emitter: Address, batchId: int, chunkIndex: int, data: Option<string>)

  function Emit(h: Head, i: nat, address: Address, ev: Event): Log {
    Log(h.blockNumber, h.at + i, h.txHash, address, h.timestamp, ev)
  }

  ghost predicate WellFormed(g: Group) {
    match g
    case SpendGroup(_, emitter, kind, start, ocs, nfs, roots, envelope, announcement, _) =>
      && |ocs| == |roots| == Arity(kind) > 0
      && (Consumer(kind) || (emitter == POOL && EnvelopeFits(LedgerKind(kind), envelope)))
      && (announcement.Some? ==> Withdrawal(kind) && announcement.value.WithdrawAnnouncement?)
    case BatchGroup(_, s, _, _, published, _) =>
      published.Some? ==>
        && published.value.DisburseCiphertexts? && published.value.start == s.start
        && EnvelopeFits(L.OpDisburse, published.value.envelope)
    case PrivGroup(_, _, s, _, _, _, published, _) =>
      published.Some? ==> published.value.DisbursePrivDisclosure? && published.value.start == s.start
    case _ => true
  }

  /** The inserts of a small op, one Appended per commitment. */
  function AppendLogs(h: Head, start: nat, ocs: seq<Felt>, roots: seq<Felt>, n: nat): seq<Log>
    requires n <= |ocs| == |roots|
  {
    if n == 0 then []
    else
      AppendLogs(h, start, ocs, roots, n - 1)
      + [Emit(h, n - 1, POOL, Appended(start + n - 1, ocs[n - 1], roots[n - 1]))]
  }

  function PairsUpTo(start: nat, ocs: seq<Felt>, roots: seq<Felt>, n: nat): (r: seq<Pair>)
    requires n <= |ocs| == |roots|
    ensures |r| == n
    ensures forall i {:trigger r[i]} :: 0 <= i < n ==> r[i] == Pair(start + i, ocs[i], roots[i])
  {
    if n == 0 then [] else PairsUpTo(start, ocs, roots, n - 1) + [Pair(start + n - 1, ocs[n - 1], roots[n - 1])]
  }

  function PairsOf(g: Group): (r: seq<Pair>)
    requires g.SpendGroup? && |g.ocs| == |g.roots|
    ensures |r| == |g.ocs|
  {
    PairsUpTo(g.start, g.ocs, g.roots, |g.ocs|)
  }

  /** The anchor a consumer op carries. */
  function AnchorOf(g: Group): Option<OpRecord>
    requires WellFormed(g)
  {
    match g
    case SpendGroup(_, emitter, kind, start, ocs, nfs, roots, _, _, _) =>
      if Consumer(kind) then Some(OpRecord(emitter, start, Nonzero(nfs), |ocs|, 0, roots[|roots| - 1])) else None
    case PrivGroup(_, emitter, s, _, _, _, _, _) => Some(OpRecord(emitter, s.start, 1, 0, s.subtreeRoot, s.root))
    case _ => None
  }

  function TreeLogs(g: Group): seq<Log>
    requires WellFormed(g)
  {
    match g
    case SpendGroup(h, _, _, start, ocs, _, roots, _, _, _) => AppendLogs(h, start, ocs, roots, |ocs|)
    case BatchGroup(h, s, _, _, _, _) => [Emit(h, 0, POOL, SubtreeAppended(s.start, s.subtreeRoot, s.root))]
    case PrivGroup(h, _, s, _, _, _, _, _) => [Emit(h, 0, POOL, SubtreeAppended(s.start, s.subtreeRoot, s.root))]
    case _ => []
  }

  function AnchorLogs(g: Group): seq<Log>
    requires WellFormed(g)
  {
    if AnchorOf(g).Some? then [Emit(g.h, |TreeLogs(g)|, POOL, OpApplied(AnchorOf(g).value))] else []
  }

  /** The op's own event, after its tree events and its anchor. */
  function MainLog(g: Group): Log
    requires WellFormed(g)
  {
    var i := |TreeLogs(g)| + |AnchorLogs(g)|;
    match g
    case SpendGroup(h, emitter, kind, _, ocs, nfs, _, envelope, _, payload) =>
      Emit(h, i, emitter, Spent(kind, ocs, nfs, envelope, payload))
    case BatchGroup(h, s, nf, dh, _, payload) => Emit(h, i, POOL, Disbursed(s.subtreeRoot, nf, dh, payload))
    case PrivGroup(h, emitter, s, nf, dh, hashes, _, payload) =>
      Emit(h, i, emitter, DisbursedPriv(s.subtreeRoot, nf, dh, hashes, payload))
    case RegistryGroup(h, a, registered) =>
      Emit(h, i, POOL, if registered then ModuleRegistered(a) else ModuleRemoved(a))
    case AcceptGroup(h, emitter, batchId, chunkIndex, data) =>
      Emit(h, i, emitter, KemChunkAccepted(batchId, chunkIndex, data))
  }

  function TailOf(g: Group): Option<Event> {
    match g
    case SpendGroup(_, _, _, _, _, _, _, _, announcement, _) => announcement
    case BatchGroup(_, _, _, _, published, _) => published
    case PrivGroup(_, _, _, _, _, _, published, _) => published
    case _ => None
  }

  function TailLogs(g: Group): seq<Log>
    requires WellFormed(g)
  {
    if TailOf(g).None? then []
    else [Emit(g.h, |TreeLogs(g)| + |AnchorLogs(g)| + 1, MainLog(g).address, TailOf(g).value)]
  }

  function LogsOf(g: Group): seq<Log>
    requires WellFormed(g)
  {
    TreeLogs(g) + AnchorLogs(g) + [MainLog(g)] + TailLogs(g)
  }

  ghost predicate AllWellFormed(gs: seq<Group>) {
    forall i :: 0 <= i < |gs| ==> WellFormed(gs[i])
  }

  function Flatten(gs: seq<Group>): seq<Log>
    requires AllWellFormed(gs)
    decreases |gs|
  {
    if gs == [] then [] else LogsOf(gs[0]) + Flatten(gs[1..])
  }

  // ---- what the queues owe a transaction ---------------------------------------------

  datatype Share = Share(pairs: seq<Pair>, subtrees: seq<Subtree>, ops: seq<OpRecord>)

  function Plus(a: Share, b: Share): Share {
    Share(a.pairs + b.pairs, a.subtrees + b.subtrees, a.ops + b.ops)
  }

  const NONE := Share([], [], [])

  function LogShare(l: Log): Share {
    match l.ev
    case Appended(i, leaf, root) => Share([Pair(i, leaf, root)], [], [])
    case SubtreeAppended(start, subtreeRoot, root) => Share([], [Subtree(start, subtreeRoot, root)], [])
    case OpApplied(op) => Share([], [], [op])
    case _ => NONE
  }

  function ShareOf(logs: seq<Log>, tx: nat): Share {
    if logs == [] then NONE
    else
      var l := logs[|logs| - 1];
      Plus(ShareOf(logs[..|logs| - 1], tx), if l.txHash == tx then LogShare(l) else NONE)
  }

  function Held(q: Queues, tx: nat): Share {
    Share(Waiting(q.appended, tx), Waiting(q.subtrees, tx), Waiting(q.ops, tx))
  }

  lemma PushWaits<T>(q: map<nat, seq<T>>, at: nat, x: T, tx: nat)
    ensures Waiting(Push(q, at, x), tx) == Waiting(q, tx) + if at == tx then [x] else []
  {
  }

  lemma QueuedShare(q: Queues, l: Log, tx: nat)
    ensures Held(Queued(q, l), tx) == Plus(Held(q, tx), if l.txHash == tx then LogShare(l) else NONE)
    ensures Queued(q, l).withdraws == q.withdraws
  {
    hide Push, Waiting;
    match l.ev {
      case Appended(i, leaf, root) => PushWaits(q.appended, l.txHash, Pair(i, leaf, root), tx);
      case SubtreeAppended(start, subtreeRoot, root) =>
        PushWaits(q.subtrees, l.txHash, Subtree(start, subtreeRoot, root), tx);
      case OpApplied(op) => PushWaits(q.ops, l.txHash, op, tx);
      case _ =>
    }
  }

  lemma {:induction false} QueuesHoldShares(logs: seq<Log>, tx: nat)
    ensures Held(QueuesOf(logs), tx) == ShareOf(logs, tx)
    ensures QueuesOf(logs).withdraws == map[]
  {
    hide Queued, LogShare;
    if logs != [] {
      QueuesHoldShares(logs[..|logs| - 1], tx);
      QueuedShare(QueuesOf(logs[..|logs| - 1]), logs[|logs| - 1], tx);
    }
  }

  lemma {:induction false} SharesAdd(a: seq<Log>, b: seq<Log>, tx: nat)
    ensures ShareOf(a + b, tx) == Plus(ShareOf(a, tx), ShareOf(b, tx))
  {
    if b == [] {
      assert a + b == a;
    } else {
      assert (a + b)[..|a + b| - 1] == a + b[..|b| - 1];
      SharesAdd(a, b[..|b| - 1], tx);
    }
  }

  lemma {:induction false} AppendShares(h: Head, start: nat, ocs: seq<Felt>, roots: seq<Felt>, n: nat, tx: nat)
    requires n <= |ocs| == |roots|
    ensures ShareOf(AppendLogs(h, start, ocs, roots, n), tx)
         == if tx == h.txHash then Share(PairsUpTo(start, ocs, roots, n), [], []) else NONE
  {
    if n > 0 {
      AppendShares(h, start, ocs, roots, n - 1, tx);
      var init, l := AppendLogs(h, start, ocs, roots, n - 1),
        Emit(h, n - 1, POOL, Appended(start + n - 1, ocs[n - 1], roots[n - 1]));
      assert (init + [l])[..|init|] == init;
    }
  }

  lemma OneShare(l: Log, tx: nat)
    ensures ShareOf([l], tx) == if l.txHash == tx then LogShare(l) else NONE
  {
    assert [l][..0] == [];
  }

  function TreeShare(g: Group): Share
    requires WellFormed(g)
  {
    match g
    case SpendGroup(_, _, _, _, _, _, _, _, _, _) => Share(PairsOf(g), [], [])
    case BatchGroup(_, s, _, _, _, _) => Share([], [s], [])
    case PrivGroup(_, _, s, _, _, _, _, _) => Share([], [s], [])
    case _ => NONE
  }

  function OwnShare(g: Group): Share
    requires WellFormed(g)
  {
    TreeShare(g).(ops := if AnchorOf(g).Some? then [AnchorOf(g).value] else [])
  }

  lemma GroupShare(g: Group, tx: nat)
    requires WellFormed(g)
    ensures ShareOf(LogsOf(g), tx) == if tx == g.h.txHash then OwnShare(g) else NONE
  {
    hide ShareOf, TreeLogs;
    NoShare(tx);
    var a, b, c, d := TreeLogs(g), AnchorLogs(g), [MainLog(g)], TailLogs(g);
    SharesAdd(a + b + c, d, tx);
    SharesAdd(a + b, c, tx);
    SharesAdd(a, b, tx);
    OneShare(MainLog(g), tx);
    TreeShares(g, tx);
    if AnchorOf(g).Some? {
      OneShare(AnchorLogs(g)[0], tx);
    }
    if TailOf(g).Some? {
      OneShare(TailLogs(g)[0], tx);
    }
  }

  lemma NoShare(tx: nat)
    ensures ShareOf([], tx) == NONE
  {
  }

  lemma TreeShares(g: Group, tx: nat)
    requires WellFormed(g)
    ensures ShareOf(TreeLogs(g), tx) == if tx == g.h.txHash then TreeShare(g) else NONE
  {
    if g.SpendGroup? {
      AppendShares(g.h, g.start, g.ocs, g.roots, |g.ocs|, tx);
    } else if g.BatchGroup? || g.PrivGroup? {
      OneShare(TreeLogs(g)[0], tx);
    }
  }

  // ---- what a group means ------------------------------------------------------------

  /** A group's effect, told directly: each op is given its own leaves, its own subtree, its own
      published material and its own announcement. */
  function GroupEffect(m: Mem, g: Group): (r: (Mem, bool))
    requires K.Valid(m.kem) && WellFormed(g)
    ensures K.Valid(r.0.kem)
  {
    var l := MainLog(g);
    match g
    case SpendGroup(_, _, _, _, _, _, _, _, announcement, _) =>
      var (m', at, ok) := Spend(m, l, PairsOf(g));
      (if ok && at.Some? && announcement.Some? then Announce(m', [at.value], announcement.value) else m', ok)
    case BatchGroup(_, s, _, _, published, _) => Disburse(m, l, s, published)
    case PrivGroup(_, _, s, _, _, _, published, _) =>
      K.RecordKeeps(m.kem, KemRecord(l, s));
      (DisbursePriv(m, l, s, published), true)
    case RegistryGroup(_, a, registered) =>
      var (modules, ok) := R.Apply(m.modules, KeyOf(l), a, registered);
      (m.(modules := modules), ok)
    case AcceptGroup(_, _, batchId, chunkIndex, data) =>
      var a := K.Accept(batchId, chunkIndex, data, KeyOf(l));
      K.AcceptKeeps(m.kem, a);
      var (kem, ok) := K.AcceptChunk(m.kem, a);
      (m.(kem := kem), ok)
  }

  function RunGroups(m: Mem, gs: seq<Group>): (r: (Mem, bool))
    requires K.Valid(m.kem) && AllWellFormed(gs)
    ensures K.Valid(r.0.kem)
    decreases |gs|
  {
    if gs == [] then (m, true)
    else
      var (m', ok) := GroupEffect(m, gs[0]);
      if ok then RunGroups(m', gs[1..]) else (m', false)
  }

  // ---- one group through pass 2 ------------------------------------------------------

  predicate Quiet(l: Log) {
    match l.ev
    case Appended(_, _, _) => true
    case SubtreeAppended(_, _, _) => true
    case OpApplied(_) => true
    case DisburseCiphertexts(_, _, _) => true
    case DisbursePrivDisclosure(_, _) => true
    case _ => false
  }

  lemma {:induction false} QuietPass(m: Mem, q: Queues, all: seq<Log>, logs: seq<Log>)
    requires K.Valid(m.kem) && AllParsed(all) && AllParsed(logs)
    requires forall i :: 0 <= i < |logs| ==> Quiet(logs[i])
    ensures Pass2(m, q, all, logs) == (m, q, true)
    decreases |logs|
  {
    if logs != [] {
      QuietPass(m, q, all, logs[1..]);
    }
  }

  lemma {:induction false} PassAdds(m: Mem, q: Queues, all: seq<Log>, a: seq<Log>, b: seq<Log>)
    requires K.Valid(m.kem) && AllParsed(all) && AllParsed(a) && AllParsed(b)
    ensures AllParsed(a + b)
    ensures var (m', q', ok) := Pass2(m, q, all, a);
            Pass2(m, q, all, a + b) == if ok then Pass2(m', q', all, b) else (m', q', false)
    decreases |a|
  {
    if a == [] {
      assert a + b == b;
    } else {
      var (m', q', ok) := Step(m, q, all, a[0]);
      if ok {
        PassAdds(m', q', all, a[1..], b);
      }
      assert (a + b)[1..] == a[1..] + b;
    }
  }

  lemma OnePass(m: Mem, q: Queues, all: seq<Log>, l: Log)
    requires K.Valid(m.kem) && AllParsed(all) && Parsed(l)
    ensures Pass2(m, q, all, [l]) == Step(m, q, all, l)
  {
    assert [l][1..] == [];
  }

  lemma {:induction false} AppendLogsQuiet(h: Head, start: nat, ocs: seq<Felt>, roots: seq<Felt>, n: nat)
    requires n <= |ocs| == |roots|
    ensures var logs := AppendLogs(h, start, ocs, roots, n);
            && |logs| == n
            && forall i :: 0 <= i < n ==> Quiet(logs[i]) && Parsed(logs[i])
  {
    if n > 0 {
      AppendLogsQuiet(h, start, ocs, roots, n - 1);
    }
  }

  lemma QuietPrefix(g: Group)
    requires WellFormed(g)
    ensures var logs := TreeLogs(g) + AnchorLogs(g);
            AllParsed(logs) && forall i :: 0 <= i < |logs| ==> Quiet(logs[i])
    ensures Parsed(MainLog(g)) && AllParsed(TailLogs(g)) && AllParsed(LogsOf(g))
  {
    if g.SpendGroup? {
      AppendLogsQuiet(g.h, g.start, g.ocs, g.roots, |g.ocs|);
    }
  }

  lemma {:induction false} TakeOwn(pairs: seq<Pair>, more: seq<Pair>, ocs: seq<Felt>)
    requires |pairs| == |ocs| && forall i :: 0 <= i < |ocs| ==> pairs[i].leaf == ocs[i]
    ensures TakePairs(pairs + more, ocs) == Some(pairs)
    decreases |ocs|
  {
    if ocs != [] {
      assert (pairs + more)[1..] == pairs[1..] + more;
      TakeOwn(pairs[1..], more, ocs[1..]);
      assert [pairs[0]] + pairs[1..] == pairs;
    }
  }

  /** The queues hold exactly what the logs still to come put there. */
  ghost predicate Owes(q: Queues, logs: seq<Log>) {
    forall tx {:trigger Held(q, tx)} :: Held(q, tx) == ShareOf(logs, tx)
  }

  /** No withdrawal is left over where an announcement could still take it. Before the stealth upgrade
      withdrawals were not announced: the transactions in `txs` are those that announce. */
  ghost predicate NobodyWaits(q: Queues, txs: set<nat>) {
    forall tx {:trigger Waiting(q.withdraws, tx)} :: tx in txs ==> Waiting(q.withdraws, tx) == []
  }

  /** A withdrawal is announced exactly in the transactions that announce. */
  predicate Dated(g: Group, txs: set<nat>) {
    g.SpendGroup? && Withdrawal(g.kind) ==> (g.announcement.Some? <==> g.h.txHash in txs)
  }

  /** The range publishes for this group what the group says, and its module is known by then. */
  ghost predicate Served(m: Mem, all: seq<Log>, g: Group)
    requires WellFormed(g)
  {
    Indexed(all, g) && Attributed(m, g)
  }

  ghost predicate Indexed(all: seq<Log>, g: Group) {
    g.BatchGroup? || g.PrivGroup? ==> PublishedOf(all, g.h.txHash, g.s.start, g.PrivGroup?) == g.published
  }

  ghost predicate Attributed(m: Mem, g: Group)
    requires WellFormed(g)
  {
    AnchorOf(g).Some? ==> R.IsKnown(m.modules, g.emitter)
  }

  /** Nothing foreign waits in a queue the group draws from. */
  ghost predicate Clear(before: Share, g: Group)
    requires WellFormed(g)
  {
    && (g.SpendGroup? ==> before.pairs == [])
    && (IsBatch(g) ==> before.subtrees == [])
    && (AnchorOf(g).Some? ==> before.ops == [])
  }

  /** `left` is what ops the gate dropped have left behind. */
  lemma OwnHead(q: Queues, left: seq<Log>, g: Group, rest: seq<Log>)
    requires WellFormed(g) && Owes(q, left + (LogsOf(g) + rest))
    ensures Held(q, g.h.txHash) == Plus(ShareOf(left, g.h.txHash), Plus(OwnShare(g), ShareOf(rest, g.h.txHash)))
  {
    SharesAdd(left, LogsOf(g) + rest, g.h.txHash);
    SharesAdd(LogsOf(g), rest, g.h.txHash);
    GroupShare(g, g.h.txHash);
  }

  /** The queues after the group has taken its share. */
  function After(q: Queues, g: Group): Queues
    requires WellFormed(g)
  {
    var tx := g.h.txHash;
    match g
    case SpendGroup(_, _, kind, _, ocs, _, _, _, _, _) =>
      var q' := q.(appended := Rest(q.appended, tx, |ocs|));
      if Consumer(kind) then q'.(ops := Rest(q.ops, tx, 1)) else q'
    case BatchGroup(_, _, _, _, _, _) => q.(subtrees := Rest(q.subtrees, tx, 1))
    case PrivGroup(_, _, _, _, _, _, _, _) => q.(subtrees := Rest(q.subtrees, tx, 1), ops := Rest(q.ops, tx, 1))
    case _ => q
  }

  lemma RestWaits<T>(q: map<nat, seq<T>>, tx: nat, own: seq<T>, more: seq<T>)
    requires Waiting(q, tx) == own + more
    ensures Waiting(Rest(q, tx, |own|), tx) == more
    ensures forall t {:trigger Waiting(Rest(q, tx, |own|), t)} :: t != tx ==>
              Waiting(Rest(q, tx, |own|), t) == Waiting(q, t)
  {
    assert (own + more)[|own|..] == more;
  }

  lemma AfterHeld(q: Queues, before: Share, g: Group, more: Share)
    requires WellFormed(g) && Held(q, g.h.txHash) == Plus(before, Plus(OwnShare(g), more)) && Clear(before, g)
    ensures Held(After(q, g), g.h.txHash) == Plus(before, more)
    ensures forall tx {:trigger Held(After(q, g), tx)} :: tx != g.h.txHash ==> Held(After(q, g), tx) == Held(q, tx)
  {
    hide Rest, Waiting, TreeLogs;
    var tx, own := g.h.txHash, OwnShare(g);
    if g.SpendGroup? {
      RestWaits(q.appended, tx, own.pairs, more.pairs);
    }
    if IsBatch(g) {
      RestWaits(q.subtrees, tx, own.subtrees, more.subtrees);
    }
    if AnchorOf(g).Some? {
      RestWaits(q.ops, tx, own.ops, more.ops);
    }
  }

  lemma AfterOwes(q: Queues, left: seq<Log>, g: Group, rest: seq<Log>)
    requires WellFormed(g) && Owes(q, left + (LogsOf(g) + rest)) && Clear(ShareOf(left, g.h.txHash), g)
    ensures Owes(After(q, g), left + rest)
  {
    hide ShareOf, LogsOf, OwnShare, After, Held, WellFormed, Clear, Plus;
    OwnHead(q, left, g, rest);
    AfterHeld(q, ShareOf(left, g.h.txHash), g, ShareOf(rest, g.h.txHash));
    forall tx
      ensures Held(After(q, g), tx) == ShareOf(left + rest, tx)
    {
      if tx == g.h.txHash {
        SharesAdd(left, rest, tx);
      } else {
        assert Held(q, tx) == ShareOf(left + (LogsOf(g) + rest), tx);
        ShareElsewhere(left, g, rest, tx);
      }
    }
  }

  lemma ShareElsewhere(left: seq<Log>, g: Group, rest: seq<Log>, tx: nat)
    requires WellFormed(g) && tx != g.h.txHash
    ensures ShareOf(left + (LogsOf(g) + rest), tx) == ShareOf(left + rest, tx)
  {
    hide ShareOf, LogsOf, OwnShare;
    SharesAdd(left, rest, tx);
    SharesAdd(left, LogsOf(g) + rest, tx);
    SharesAdd(LogsOf(g), rest, tx);
    GroupShare(g, tx);
  }

  /** What a group's main log is entitled to. */
  function OwnMatch(g: Group): Match
    requires WellFormed(g)
  {
    match g
    case SpendGroup(_, _, _, _, _, _, _, _, _, _) => Landed(PairsOf(g))
    case BatchGroup(_, s, _, _, _, _) => Attached(s)
    case PrivGroup(_, _, s, _, _, _, _, _) => Attached(s)
    case _ => Nothing
  }

  /** The main log takes exactly the group's own inserts, unless a dropped op left something before
      them in a queue it draws from. */
  lemma TakesItsOwn(m: Mem, q: Queues, left: seq<Log>, g: Group, rest: seq<Log>)
    requires WellFormed(g) && Owes(q, left + (LogsOf(g) + rest)) && Clear(ShareOf(left, g.h.txHash), g)
    requires AnchorOf(g).Some? ==> R.IsKnown(m.modules, g.emitter)
    ensures Correlate(q, m.modules, MainLog(g)) == (After(q, g), Some(OwnMatch(g)))
  {
    hide ShareOf, LogsOf, Owes;
    var before, more := ShareOf(left, g.h.txHash), ShareOf(rest, g.h.txHash);
    OwnHead(q, left, g, rest);
    match g {
      case SpendGroup(_, _, _, _, _, _, _, _, _, _) => SpendTakes(m, q, before, g, more);
      case BatchGroup(_, _, _, _, _, _) => BatchTakes(m, q, before, g, more);
      case PrivGroup(_, _, _, _, _, _, _, _) => BatchTakes(m, q, before, g, more);
      case _ =>
    }
  }

  lemma SpendTakes(m: Mem, q: Queues, before: Share, g: Group, more: Share)
    requires WellFormed(g) && g.SpendGroup? && Held(q, g.h.txHash) == Plus(before, Plus(OwnShare(g), more))
    requires Clear(before, g) && (AnchorOf(g).Some? ==> R.IsKnown(m.modules, g.emitter))
    ensures Correlate(q, m.modules, MainLog(g)) == (After(q, g), Some(OwnMatch(g)))
  {
    hide TreeLogs, Rest;
    assert [] + (PairsOf(g) + more.pairs) == PairsOf(g) + more.pairs;
    TakeOwn(PairsOf(g), more.pairs, g.ocs);
  }

  lemma BatchTakes(m: Mem, q: Queues, before: Share, g: Group, more: Share)
    requires WellFormed(g) && IsBatch(g) && Held(q, g.h.txHash) == Plus(before, Plus(OwnShare(g), more))
    requires Clear(before, g) && (AnchorOf(g).Some? ==> R.IsKnown(m.modules, g.emitter))
    ensures Correlate(q, m.modules, MainLog(g)) == (After(q, g), Some(OwnMatch(g)))
  {
    hide TreeLogs, Rest;
  }

  /** The queues once the main log is done: a withdrawal waits for its announcement. */
  function AfterMain(m: Mem, q: Queues, g: Group): Queues
    requires K.Valid(m.kem) && WellFormed(g)
  {
    if g.SpendGroup? && Spend(m, MainLog(g), PairsOf(g)).1.Some?
    then After(q, g).(withdraws := Push(q.withdraws, g.h.txHash, Spend(m, MainLog(g), PairsOf(g)).1.value))
    else After(q, g)
  }

  /** A group's effect short of its announcement. */
  function MainEffect(m: Mem, g: Group): (Mem, bool)
    requires K.Valid(m.kem) && WellFormed(g)
  {
    if g.SpendGroup? then
      var (m', _, ok) := Spend(m, MainLog(g), PairsOf(g));
      (m', ok)
    else GroupEffect(m, g)
  }

  lemma MainStep(m: Mem, q: Queues, all: seq<Log>, left: seq<Log>, g: Group, rest: seq<Log>)
    requires K.Valid(m.kem) && WellFormed(g) && AllParsed(all) && Parsed(MainLog(g))
    requires Owes(q, left + (LogsOf(g) + rest)) && Clear(ShareOf(left, g.h.txHash), g) && Served(m, all, g)
    ensures Step(m, q, all, MainLog(g)) == (MainEffect(m, g).0, AfterMain(m, q, g), MainEffect(m, g).1)
  {
    hide Spend, Disburse, DisbursePriv, Correlate, LogsOf, ShareOf, Held, Owes, PairsOf, R.Apply, K.AcceptChunk, Clear;
    TakesItsOwn(m, q, left, g, rest);
    AfterWithdraws(q, g);
  }

  lemma AfterWithdraws(q: Queues, g: Group)
    requires WellFormed(g)
    ensures After(q, g).withdraws == q.withdraws
  {
  }

  /** The announcement, if any, reaches the group's own withdrawal and nobody is left waiting. */
  lemma TailStep(m: Mem, q: Queues, all: seq<Log>, g: Group, txs: set<nat>)
    requires K.Valid(m.kem) && WellFormed(g) && AllParsed(all) && AllParsed(TailLogs(g)) && NobodyWaits(q, txs)
    requires Dated(g, txs)
    requires MainEffect(m, g).1
    ensures K.Valid(MainEffect(m, g).0.kem) && GroupEffect(m, g).1
    ensures var (m', q', ok) := Pass2(MainEffect(m, g).0, AfterMain(m, q, g), all, TailLogs(g));
            && ok && m' == GroupEffect(m, g).0 && NobodyWaits(q', txs)
            && forall tx {:trigger Held(q', tx)} :: Held(q', tx) == Held(After(q, g), tx)
  {
    hide Spend, Disburse, DisbursePriv, LogsOf, PairsOf, R.Apply, K.AcceptChunk, After, Correlate, Rest, Waiting, Push,
      NobodyWaits;
    AfterWithdraws(q, g);
    SpendAt(m, g);
    var m', q' := MainEffect(m, g).0, AfterMain(m, q, g);
    if g.SpendGroup? && g.announcement.Some? {
      DrainedWaits(q, txs, g.h.txHash, Spend(m, MainLog(g), PairsOf(g)).1, q'.withdraws);
      OnePass(m', q', all, TailLogs(g)[0]);
      TailCorrelates(q', m'.modules, g);
      WaitingIs(q'.(withdraws := Rest(q'.withdraws, g.h.txHash, 1)), Pass2(m', q', all, TailLogs(g)).1, txs);
    } else {
      StillWaiting(q, q', txs, g, if g.SpendGroup? then Spend(m, MainLog(g), PairsOf(g)).1 else None);
      QuietPass(m', q', all, TailLogs(g));
    }
  }

  /** A withdrawal queued, then taken by its announcement. */
  lemma DrainedWaits(q: Queues, txs: set<nat>, tx: nat, at: Option<nat>, w: map<nat, seq<nat>>)
    requires NobodyWaits(q, txs) && tx in txs && w == if at.Some? then Push(q.withdraws, tx, at.value) else q.withdraws
    ensures Waiting(w, tx) == if at.Some? then [at.value] else []
    ensures NobodyWaits(q.(withdraws := Rest(w, tx, 1)), txs)
  {
    assert Waiting(q.withdraws, tx) == [];
    forall t | t in txs
      ensures Waiting(Rest(w, tx, 1), t) == []
    {
      assert Waiting(q.withdraws, t) == [];
    }
  }

  /** A withdrawal that is never announced waits where nobody announces. */
  lemma StillWaiting(q: Queues, q': Queues, txs: set<nat>, g: Group, at: Option<nat>)
    requires NobodyWaits(q, txs) && Dated(g, txs)
    requires (at.Some? ==> g.SpendGroup? && Withdrawal(g.kind) && g.announcement.None?)
    requires q'.withdraws == if at.Some? then Push(q.withdraws, g.h.txHash, at.value) else q.withdraws
    ensures NobodyWaits(q', txs)
  {
    forall t | t in txs
      ensures Waiting(q'.withdraws, t) == []
    {
      assert Waiting(q.withdraws, t) == [];
    }
  }

  lemma TailCorrelates(q: Queues, modules: R.State, g: Group)
    requires WellFormed(g) && TailOf(g).Some?
    ensures Correlate(q, modules, TailLogs(g)[0]) == (q, Some(Nothing))
  {
  }

  lemma SpendAt(m: Mem, g: Group)
    requires WellFormed(g)
    ensures g.SpendGroup? && Spend(m, MainLog(g), PairsOf(g)).1.Some? ==> Withdrawal(g.kind)
    ensures g.SpendGroup? ==> Spend(m, MainLog(g), PairsOf(g)).0.kem == m.kem
  {
  }

  lemma WaitingIs(q: Queues, q': Queues, txs: set<nat>)
    requires NobodyWaits(q, txs) && q'.withdraws == q.withdraws
    ensures NobodyWaits(q', txs)
  {
    forall tx | tx in txs
      ensures Waiting(q'.withdraws, tx) == []
    {
      assert Waiting(q.withdraws, tx) == [];
    }
  }

  /** Pass 2 over one group's logs is the group's effect. */
  lemma GroupPass(m: Mem, q: Queues, all: seq<Log>, left: seq<Log>, g: Group, rest: seq<Log>, txs: set<nat>)
    requires K.Valid(m.kem) && WellFormed(g) && AllParsed(all) && AllParsed(LogsOf(g)) && Dated(g, txs)
    requires Owes(q, left + (LogsOf(g) + rest)) && Clear(ShareOf(left, g.h.txHash), g)
    requires NobodyWaits(q, txs) && Served(m, all, g)
    ensures var (m', q', ok) := Pass2(m, q, all, LogsOf(g));
            && ok == GroupEffect(m, g).1 && m' == GroupEffect(m, g).0
            && (ok ==> Owes(q', left + rest) && NobodyWaits(q', txs))
  {
    hide Spend, Disburse, DisbursePriv, PairsOf, R.Apply, K.AcceptChunk, After, Correlate, TreeLogs, AnchorLogs,
      MainLog, TailLogs, GroupEffect, AfterMain, MainEffect, Pass2, Step, Parsed, Served, WellFormed, Clear,
      NobodyWaits, Dated;
    QuietPrefix(g);
    var a, b := TreeLogs(g) + AnchorLogs(g), [MainLog(g)];
    QuietPass(m, q, all, a);
    OnePass(m, q, all, MainLog(g));
    MainStep(m, q, all, left, g, rest);
    PassAdds(m, q, all, a, b);
    PassAdds(m, q, all, a + b, TailLogs(g));
    MainDecides(m, g);
    if MainEffect(m, g).1 {
      TailStep(m, q, all, g, txs);
      AfterOwes(q, left, g, rest);
      OwesSame(After(q, g), Pass2(MainEffect(m, g).0, AfterMain(m, q, g), all, TailLogs(g)).1, left + rest);
    }
  }

  lemma MainDecides(m: Mem, g: Group)
    requires K.Valid(m.kem) && WellFormed(g)
    ensures MainEffect(m, g).1 == GroupEffect(m, g).1
    ensures !MainEffect(m, g).1 ==> MainEffect(m, g).0 == GroupEffect(m, g).0
    ensures K.Valid(MainEffect(m, g).0.kem)
  {
    hide Spend, Disburse, DisbursePriv, R.Apply, K.AcceptChunk;
    SpendAt(m, g);
  }

  lemma OwesSame(q: Queues, q': Queues, logs: seq<Log>)
    requires Owes(q, logs) && forall tx {:trigger Held(q', tx)} :: Held(q', tx) == Held(q, tx)
    ensures Owes(q', logs)
  {
  }

  // ---- the whole range ---------------------------------------------------------------

  /** Every consumer op comes from a module the registry has seen by then. */
  ghost predicate AllAttributed(m: Mem, gs: seq<Group>)
    requires K.Valid(m.kem) && AllWellFormed(gs)
    decreases |gs|
  {
    gs == [] || (Attributed(m, gs[0]) && (GroupEffect(m, gs[0]).1 ==> AllAttributed(GroupEffect(m, gs[0]).0, gs[1..])))
  }

  ghost predicate AllIndexed(all: seq<Log>, gs: seq<Group>) {
    forall i :: 0 <= i < |gs| ==> Indexed(all, gs[i])
  }

  lemma {:induction false} FlattenParsed(gs: seq<Group>)
    requires AllWellFormed(gs)
    ensures AllParsed(Flatten(gs))
    decreases |gs|
  {
    hide LogsOf, WellFormed, Parsed;
    if gs != [] {
      QuietPrefix(gs[0]);
      FlattenParsed(gs[1..]);
    }
  }

  ghost predicate AllDated(gs: seq<Group>, txs: set<nat>) {
    forall i :: 0 <= i < |gs| ==> Dated(gs[i], txs)
  }

  /** Pass 2 over groups, with the rest of the range still to come. */
  lemma {:induction false} GroupsPass(m: Mem, q: Queues, all: seq<Log>, gs: seq<Group>, rest: seq<Log>, txs: set<nat>)
    requires K.Valid(m.kem) && AllWellFormed(gs) && AllParsed(all) && AllParsed(Flatten(gs))
    requires AllIndexed(all, gs) && AllAttributed(m, gs) && AllDated(gs, txs)
    requires Owes(q, Flatten(gs) + rest) && NobodyWaits(q, txs)
    ensures var (m', q', ok) := Pass2(m, q, all, Flatten(gs));
            && ok == RunGroups(m, gs).1 && m' == RunGroups(m, gs).0
            && (ok ==> Owes(q', rest) && NobodyWaits(q', txs))
    decreases |gs|
  {
    hide LogsOf, WellFormed, Parsed, GroupEffect, Owes, NobodyWaits, Step, Indexed, Attributed, Dated;
    if gs == [] {
      assert [] + rest == rest;
    } else {
      var a, b := LogsOf(gs[0]), Flatten(gs[1..]);
      assert a + b + rest == [] + (a + (b + rest)) && [] + (b + rest) == b + rest;
      QuietPrefix(gs[0]);
      FlattenParsed(gs[1..]);
      NothingLeft(gs[0]);
      GroupPass(m, q, all, [], gs[0], b + rest, txs);
      PassAdds(m, q, all, a, b);
      var (m', q', ok) := Pass2(m, q, all, a);
      if ok {
        GroupsPass(m', q', all, gs[1..], rest, txs);
      }
    }
  }

  lemma NothingLeft(g: Group)
    requires WellFormed(g)
    ensures Clear(ShareOf([], g.h.txHash), g)
  {
  }

  lemma {:induction false} PublishedAdds(a: seq<Log>, b: seq<Log>, tx: nat, start: nat, consumer: bool)
    ensures PublishedOf(a + b, tx, start, consumer)
         == if PublishedOf(b, tx, start, consumer).Some? then PublishedOf(b, tx, start, consumer)
           else PublishedOf(a, tx, start, consumer)
  {
    if b == [] {
      assert a + b == a;
    } else {
      assert (a + b)[..|a + b| - 1] == a + b[..|b| - 1];
      PublishedAdds(a, b[..|b| - 1], tx, start, consumer);
    }
  }

  lemma {:induction false} NothingPublished(logs: seq<Log>, tx: nat, start: nat, consumer: bool)
    requires forall i :: 0 <= i < |logs| ==> !Publishes(logs[i].ev, start, consumer)
    ensures PublishedOf(logs, tx, start, consumer) == None
  {
    if logs != [] {
      NothingPublished(logs[..|logs| - 1], tx, start, consumer);
    }
  }

  lemma OnePublished(l: Log, tx: nat, start: nat, consumer: bool)
    ensures PublishedOf([l], tx, start, consumer)
         == if l.txHash == tx && Publishes(l.ev, start, consumer) then Some(l.ev) else None
  {
    assert [l][..0] == [];
  }

  /** Whether this group may publish material under (tx, start). */
  predicate Owns(g: Group, tx: nat, start: nat, consumer: bool) {
    g.h.txHash == tx && (if consumer then g.PrivGroup? && g.s.start == start else g.BatchGroup? && g.s.start == start)
  }

  lemma {:induction false} AppendsPublishNothing(h: Head, start: nat, ocs: seq<Felt>, roots: seq<Felt>, n: nat)
    requires n <= |ocs| == |roots|
    ensures forall i :: 0 <= i < |AppendLogs(h, start, ocs, roots, n)| ==>
              AppendLogs(h, start, ocs, roots, n)[i].ev.Appended?
  {
    if n > 0 {
      AppendsPublishNothing(h, start, ocs, roots, n - 1);
    }
  }

  lemma HeadPublishesNothing(g: Group, start: nat, consumer: bool)
    requires WellFormed(g)
    ensures var logs := TreeLogs(g) + AnchorLogs(g) + [MainLog(g)];
            forall i :: 0 <= i < |logs| ==> !Publishes(logs[i].ev, start, consumer)
  {
    if g.SpendGroup? {
      AppendsPublishNothing(g.h, g.start, g.ocs, g.roots, |g.ocs|);
    }
  }

  lemma GroupPublishes(g: Group, tx: nat, start: nat, consumer: bool)
    requires WellFormed(g)
    ensures PublishedOf(LogsOf(g), tx, start, consumer) == if Owns(g, tx, start, consumer) then g.published else None
  {
    hide TreeLogs, AnchorLogs, PublishedOf;
    var head := TreeLogs(g) + AnchorLogs(g) + [MainLog(g)];
    HeadPublishesNothing(g, start, consumer);
    NothingPublished(head, tx, start, consumer);
    PublishedAdds(head, TailLogs(g), tx, start, consumer);
    if TailOf(g).Some? {
      OnePublished(TailLogs(g)[0], tx, start, consumer);
    } else {
      NothingPublished(TailLogs(g), tx, start, consumer);
    }
  }

  predicate IsBatch(g: Group) {
    g.BatchGroup? || g.PrivGroup?
  }

  /** The tree is append-only, so a batch start is minted once. */
  ghost predicate DistinctBatches(gs: seq<Group>) {
    forall i, j :: 0 <= i < j < |gs| && IsBatch(gs[i]) && IsBatch(gs[j]) ==> gs[i].s.start != gs[j].s.start
  }

  lemma {:induction false} NobodyOwns(gs: seq<Group>, tx: nat, start: nat, consumer: bool)
    requires AllWellFormed(gs) && forall i :: 0 <= i < |gs| ==> !Owns(gs[i], tx, start, consumer)
    ensures PublishedOf(Flatten(gs), tx, start, consumer) == None
    decreases |gs|
  {
    hide LogsOf, WellFormed, PublishedOf;
    if gs != [] {
      GroupPublishes(gs[0], tx, start, consumer);
      NobodyOwns(gs[1..], tx, start, consumer);
      PublishedAdds(LogsOf(gs[0]), Flatten(gs[1..]), tx, start, consumer);
    } else {
      NothingPublished([], tx, start, consumer);
    }
  }

  lemma {:induction false} GroupsIndexed(gs: seq<Group>, i: nat)
    requires AllWellFormed(gs) && DistinctBatches(gs) && i < |gs|
    ensures Indexed(Flatten(gs), gs[i])
    decreases |gs|
  {
    hide LogsOf, WellFormed, PublishedOf;
    var g := gs[i];
    if IsBatch(g) {
      GroupPublishes(gs[0], g.h.txHash, g.s.start, g.PrivGroup?);
      PublishedAdds(LogsOf(gs[0]), Flatten(gs[1..]), g.h.txHash, g.s.start, g.PrivGroup?);
      if i == 0 {
        NobodyOwns(gs[1..], g.h.txHash, g.s.start, g.PrivGroup?);
      } else {
        GroupsIndexed(gs[1..], i - 1);
      }
    }
  }

  /** The transactions that announce their withdrawals. */
  function Announcing(gs: seq<Group>): set<nat> {
    set i | 0 <= i < |gs| && gs[i].SpendGroup? && gs[i].announcement.Some? :: gs[i].h.txHash
  }

  /** No transaction spans the upgrade after which withdrawals are announced. */
  ghost predicate OneVintage(gs: seq<Group>) {
    AllDated(gs, Announcing(gs))
  }

  /** Correlation. Over any concatenation of well-formed op groups, pass 2 does to the read model
      exactly what the groups mean, thrown or not, and throws exactly when a group's own handler does;
      every append, subtree and OpApplied queue ends drained, and so does every withdrawal queue where
      withdrawals are announced. */
  lemma EveryOpGetsItsOwn(m: Mem, gs: seq<Group>)
    requires K.Valid(m.kem) && AllWellFormed(gs) && DistinctBatches(gs) && AllAttributed(m, gs) && OneVintage(gs)
    ensures AllParsed(Flatten(gs))
    ensures var (m', q', ok) := Pass2(m, QueuesOf(Flatten(gs)), Flatten(gs), Flatten(gs));
            && ok == RunGroups(m, gs).1 && m' == RunGroups(m, gs).0
            && (ok ==> NobodyWaits(q', Announcing(gs)) && forall tx {:trigger Held(q', tx)} :: Held(q', tx) == NONE)
  {
    hide WellFormed, Pass2, RunGroups, QueuesOf, LogsOf, Parsed, Announcing, AllDated;
    var logs := Flatten(gs);
    FlattenParsed(gs);
    StartsOwing(logs, Announcing(gs));
    forall i | 0 <= i < |gs|
      ensures Indexed(logs, gs[i])
    {
      GroupsIndexed(gs, i);
    }
    assert logs + [] == logs;
    GroupsPass(m, QueuesOf(logs), logs, gs, [], Announcing(gs));
  }

  lemma StartsOwing(logs: seq<Log>, txs: set<nat>)
    ensures Owes(QueuesOf(logs), logs) && NobodyWaits(QueuesOf(logs), txs)
  {
    forall tx
      ensures Held(QueuesOf(logs), tx) == ShareOf(logs, tx)
      ensures Waiting(QueuesOf(logs).withdraws, tx) == []
    {
      QueuesHoldShares(logs, tx);
    }
  }
}
