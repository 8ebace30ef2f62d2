/** apps/indexer/src/ingest.ts applyLogs: the emitter gate, pass 1 over the tree events, and pass 2
    over everything else, correlated through per-transaction FIFO queues. */
module Ingest {
  import opened Field
  import opened Chain
  import D = Disclosure
  import F = Feed
  import K = Kem
  import L = Ledger
  import M = Mirror
  import R = Registry

  // ---- parsed logs -------------------------------------------------------------------

  /** The per-applyOp audit anchor. */
  datatype OpRecord = OpRecord(moduleAddr: Address, start: nat, nullifierCount: nat, leafCount: nat, subtreeRoot: Felt,
                               root: Felt)

  /** `Spent` is every op that appends its own leaves: Deposited, Transferred, Transferred10,
      Transferred10x2, Withdrawn and their four consumer twins, told apart by `kind`. An envelope
      comes already parsed. */
  datatype Event =
    | Appended(leafIndex: nat, leaf: Felt, root: Felt)
    | SubtreeAppended(start: nat, subtreeRoot: Felt, root: Felt)
    | OpApplied(op: OpRecord)
    | Spent(kind: F.EventKind, ocs: seq<Felt>, nfs: seq<Felt>, envelope: L.Envelope, payload: nat)
    | WithdrawAnnouncement(announcement: F.Announcement, stealth: bool)
    | Disbursed(subtreeRoot: Felt, nullifier: Felt, disclosureHash: Felt, payload: nat)
    | DisburseCiphertexts(start: nat, elements: seq<Felt>, envelope: L.Envelope)
    | ModuleRegistered(moduleAddr: Address)
    | ModuleRemoved(moduleAddr: Address)
    | DisbursedPriv(subtreeRoot: Felt, nullifier: Felt, disclosureHash: Felt, chunkHashes: seq<int>, payload: nat)
    | DisbursePrivDisclosure(start: nat, elements: seq<Felt>)
    | KemChunkAccepted(batchId: int, chunkIndex: int, data: Option<string>)

  datatype Log = Log(blockNumber: nat, logIndex: nat, txHash: nat, address: Address, timestamp: nat, ev: Event)

  function KeyOf(l: Log): Key {
    Key(l.txHash, l.logIndex)
  }

  const POOL: Address

  /** Whether an authority key is configured: with none there is no ledger. */
  const ARBITER: bool

  predicate Consumer(kind: F.EventKind) {
    kind.DepositPriv? || kind.TransferPriv? || kind.Transfer10x2Priv? || kind.WithdrawPriv?
  }

  predicate Withdrawal(kind: F.EventKind) {
    kind.WithdrawEvent? || kind.WithdrawPriv?
  }

  /** How many leaves an op of this kind appends. */
  function Arity(kind: F.EventKind): nat {
    match kind
    case DepositEvent => 2
    case TransferEvent => 2
    case Transfer10Event => 10
    case Transfer10x2Event => 2
    case WithdrawEvent => 1
    case DepositPriv => 2
    case TransferPriv => 2
    case Transfer10x2Priv => 2
    case WithdrawPriv => 1
    case _ => 0
  }

  function LedgerKind(kind: F.EventKind): L.OpKind {
    match kind
    case TransferEvent => L.OpTransfer
    case Transfer10Event => L.OpTransfer10
    case Transfer10x2Event => L.OpTransfer10x2
    case WithdrawEvent => L.OpWithdraw
    case DisburseEvent => L.OpDisburse
    case _ => L.OpDeposit
  }

  // ---- pass 0: the gate --------------------------------------------------------------

  predicate PoolEvent(ev: Event) {
    match ev
    case Spent(kind, _, _, _, _) => !Consumer(kind)
    case DisbursedPriv(_, _, _, _, _) => false
    case DisbursePrivDisclosure(_, _) => false
    case KemChunkAccepted(_, _, _) => false
    case _ => true
  }

  predicate ModuleEvent(ev: Event) {
    match ev
    case Spent(kind, _, _, _, _) => Consumer(kind)
    case DisbursedPriv(_, _, _, _, _) => true
    case DisbursePrivDisclosure(_, _) => true
    case KemChunkAccepted(_, _, _) => true
    case WithdrawAnnouncement(_, _) => true
    case _ => false
  }

  predicate Admitted(l: Log, watched: set<Address>) {
    if l.address == POOL then PoolEvent(l.ev) else l.address in watched && ModuleEvent(l.ev)
  }

  /** A pool-emitted registration widens the watch-set from there on. */
  function Widened(watched: set<Address>, l: Log): set<Address> {
    if l.address == POOL && l.ev.ModuleRegistered? then watched + {l.ev.moduleAddr} else watched
  }

  function Gate(watched: set<Address>, raw: seq<Log>): seq<Log>
    decreases |raw|
  {
    if raw == [] then []
    else
      var now := Widened(watched, raw[0]);
      (if Admitted(raw[0], now) then [raw[0]] else []) + Gate(now, raw[1..])
  }

  // ---- the indexer's read model ------------------------------------------------------

  datatype Mem = Mem(tree: M.State, feed: F.State, ledger: L.State, modules: R.State, kem: K.State)

  const EMPTY := Mem(M.EMPTY, F.EMPTY, L.EMPTY, R.EMPTY, K.EMPTY)

  function Watched(m: Mem): set<Address> {
    R.WatchAddresses(m.modules, K.PendingModules(m.kem))
  }

  // ---- pass 1 ------------------------------------------------------------------------

  function TreeStep(t: M.State, l: Log): (M.State, bool) {
    match l.ev
    case Appended(i, leaf, root) => M.ApplyAppend(t, i, leaf, root)
    case SubtreeAppended(start, subtreeRoot, root) => M.ApplyAttach(t, start, subtreeRoot, root)
    case _ => (t, true)
  }

  function Pass1(t: M.State, logs: seq<Log>): (M.State, bool)
    decreases |logs|
  {
    if logs == [] then (t, true)
    else
      var (t', ok) := TreeStep(t, logs[0]);
      if ok then Pass1(t', logs[1..]) else (t', false)
  }

  // ---- the queues --------------------------------------------------------------------

  datatype Pair = Pair(leafIndex: nat, leaf: Felt, root: Felt)

  datatype Subtree = Subtree(start: nat, subtreeRoot: Felt, root: Felt)

  /** What pass 2 still has to hand out, per transaction. */
  datatype Queues = Queues(
    appended: map<nat, seq<Pair>>,
    subtrees: map<nat, seq<Subtree>>,
    ops: map<nat, seq<OpRecord>>,
    withdraws: map<nat, seq<nat>>)

  function Waiting<T>(q: map<nat, seq<T>>, tx: nat): seq<T> {
    if tx in q then q[tx] else []
  }

  function Push<T>(q: map<nat, seq<T>>, tx: nat, x: T): map<nat, seq<T>> {
    q[tx := Waiting(q, tx) + [x]]
  }

  /** One log queued by pass 1 and the OpApplied index. */
  function Queued(q: Queues, l: Log): Queues {
    match l.ev
    case Appended(i, leaf, root) => q.(appended := Push(q.appended, l.txHash, Pair(i, leaf, root)))
    case SubtreeAppended(start, subtreeRoot, root) =>
      q.(subtrees := Push(q.subtrees, l.txHash, Subtree(start, subtreeRoot, root)))
    case OpApplied(op) => q.(ops := Push(q.ops, l.txHash, op))
    case _ => q
  }

  function QueuesOf(logs: seq<Log>): Queues {
    if logs == [] then Queues(map[], map[], map[], map[])
    else Queued(QueuesOf(logs[..|logs| - 1]), logs[|logs| - 1])
  }

  predicate Publishes(ev: Event, start: nat, consumer: bool) {
    if consumer then ev.DisbursePrivDisclosure? && ev.start == start else ev.DisburseCiphertexts? && ev.start == start
  }

  /** The material a batch published, wherever in the range its transaction put it. */
  function PublishedOf(logs: seq<Log>, tx: nat, start: nat, consumer: bool): (r: Option<Event>)
    ensures r.Some? ==> Publishes(r.value, start, consumer)
  {
    if logs == [] then None
    else
      var l := logs[|logs| - 1];
      if l.txHash == tx && Publishes(l.ev, start, consumer) then Some(l.ev)
      else PublishedOf(logs[..|logs| - 1], tx, start, consumer)
  }

  // ---- correlation: what a log takes off the queues ----------------------------------

  /** takeAppend for each commitment in turn; None is the throw. */
  function TakePairs(queue: seq<Pair>, ocs: seq<Felt>): Option<seq<Pair>> {
    if ocs == [] then Some([])
    else if queue == [] || queue[0].leaf != ocs[0] then None
    else
      var rest := TakePairs(queue[1..], ocs[1..]);
      if rest.None? then None else Some([queue[0]] + rest.value)
  }

  function TakeSubtree(queue: seq<Subtree>, subtreeRoot: Felt): Option<Subtree> {
    if queue == [] || queue[0].subtreeRoot != subtreeRoot then None else Some(queue[0])
  }

  /** takeOpApplied: the next anchor names this emitter, a module ever registered, and this shape. */
  predicate AnchorAgrees(queue: seq<OpRecord>, modules: R.State, emitter: Address, shape: OpRecord) {
    queue != [] && queue[0] == shape && shape.moduleAddr == emitter && R.IsKnown(modules, emitter)
  }

  function Rest<T>(q: map<nat, seq<T>>, tx: nat, n: nat): map<nat, seq<T>> {
    var queue := Waiting(q, tx);
    q[tx := if n <= |queue| then queue[n..] else []]
  }

  function Nonzero(nfs: seq<Felt>): nat {
    if nfs == [] then 0 else Nonzero(nfs[..|nfs| - 1]) + if nfs[|nfs| - 1] != 0 then 1 else 0
  }

  /** What pass 2 knows about the log it is at. */
  datatype Match = Landed(pairs: seq<Pair>) | Attached(subtree: Subtree) | Nothing

  /** The queues after a log has taken its share; None is the throw of a correlation slip. */
  function Correlate(q: Queues, modules: R.State, l: Log): (Queues, Option<Match>) {
    match l.ev
    case Spent(kind, ocs, nfs, _, _) =>
      var taken := TakePairs(Waiting(q.appended, l.txHash), ocs);
      if taken.None? || taken.value == [] then (q, None)
      else
        var q' := q.(appended := Rest(q.appended, l.txHash, |ocs|));
        if !Consumer(kind) then (q', Some(Landed(taken.value)))
        else
          var shape := OpRecord(l.address, taken.value[0].leafIndex, Nonzero(nfs), |ocs|, 0,
                                taken.value[|taken.value| - 1].root);
          (q'.(ops := Rest(q.ops, l.txHash, 1)),
           if AnchorAgrees(Waiting(q.ops, l.txHash), modules, l.address, shape) then Some(Landed(taken.value))
           else None)
    case Disbursed(subtreeRoot, _, _, _) =>
      var taken := TakeSubtree(Waiting(q.subtrees, l.txHash), subtreeRoot);
      if taken.None? then (q, None)
      else (q.(subtrees := Rest(q.subtrees, l.txHash, 1)), Some(Attached(taken.value)))
    case DisbursedPriv(subtreeRoot, _, _, _, _) =>
      var taken := TakeSubtree(Waiting(q.subtrees, l.txHash), subtreeRoot);
      if taken.None? then (q, None)
      else
        var shape := OpRecord(l.address, taken.value.start, 1, 0, subtreeRoot, taken.value.root);
        (q.(subtrees := Rest(q.subtrees, l.txHash, 1), ops := Rest(q.ops, l.txHash, 1)),
         if AnchorAgrees(Waiting(q.ops, l.txHash), modules, l.address, shape) then Some(Attached(taken.value))
         else None)
    case _ => (q, Some(Nothing))
  }

  // ---- what a correlated log does ----------------------------------------------------

  function RecordPairs(t: M.State, pairs: seq<Pair>): M.State
    decreases |pairs|
  {
    if pairs == [] then t
    else RecordPairs(M.RecordLeaf(t, pairs[0].leafIndex, pairs[0].leaf), pairs[1..])
  }

  function Indices(pairs: seq<Pair>): seq<nat> {
    if pairs == [] then [] else [pairs[0].leafIndex] + Indices(pairs[1..])
  }

  function Refs(pairs: seq<Pair>): (r: seq<L.LeafRef>)
    ensures |r| == |pairs|
  {
    if pairs == [] then [] else [L.LeafRef(pairs[0].leafIndex, pairs[0].leaf)] + Refs(pairs[1..])
  }

  function Consecutive(start: nat, n: nat): seq<nat> {
    if n == 0 then [] else Consecutive(start, n - 1) + [start + n - 1]
  }

  /** The feed shape per kind: deposits and withdrawals of the pool publish no slices. */
  function SpentDraft(l: Log, pairs: seq<Pair>): F.Draft
    requires l.ev.Spent?
  {
    var slices := if l.ev.kind.DepositEvent? || l.ev.kind.WithdrawEvent? then [] else Indices(pairs);
    F.Draft(KeyOf(l), l.blockNumber, l.ev.kind, slices, None, None, None, l.ev.payload)
  }

  /** What the ledger is handed for a log that appended `pairs`. */
  function SpentOp(l: Log, pairs: seq<Pair>): L.OpEnvelope
    requires l.ev.Spent?
  {
    L.OpEnvelope(LedgerKind(l.ev.kind), KeyOf(l), l.timestamp, l.ev.envelope, Refs(pairs), 0, 0)
  }

  function BatchOp(l: Log, s: Subtree, envelope: L.Envelope): L.OpEnvelope {
    L.OpEnvelope(L.OpDisburse, KeyOf(l), l.timestamp, envelope, [], s.start, s.subtreeRoot)
  }

  /** The arities the ABI and parseEnvelope fix. */
  ghost predicate Parsed(l: Log) {
    match l.ev
    case Spent(kind, ocs, _, envelope, _) =>
      && |ocs| == Arity(kind) > 0
      && (!Consumer(kind) ==> EnvelopeFits(LedgerKind(kind), envelope))
    case DisburseCiphertexts(_, _, envelope) => EnvelopeFits(L.OpDisburse, envelope)
    case _ => true
  }

  ghost predicate EnvelopeFits(kind: L.OpKind, envelope: L.Envelope) {
    envelope.Notes? ==>
      && |envelope.inputs| == L.Inputs(kind) && |envelope.outputs| == L.Outputs(kind)
      && forall i :: 0 <= i < |envelope.inputs| ==> envelope.inputs[i].owner == envelope.inputs[0].owner
  }

  /** The ledger half of an op, in authority mode; false is its throw. */
  function Book(m: Mem, op: L.OpEnvelope): (Mem, bool)
    requires L.WellShaped(op)
  {
    if !ARBITER then (m, true)
    else
      var (ledger, fill, ok) := L.Apply(m.ledger, op);
      var tree := if fill.Some? then M.FillBatch(m.tree, op.batchStart, fill.value, M.Arbiter) else m.tree;
      (m.(ledger := ledger, tree := tree), ok)
  }

  /** An op that appended its own leaves: record them, then, on first sight of the log, everything
      else. Returns the new feed position of a withdrawal. */
  function Spend(m: Mem, l: Log, pairs: seq<Pair>): (Mem, Option<nat>, bool)
    requires l.ev.Spent? && Parsed(l) && |pairs| == |l.ev.ocs|
  {
    var recorded := m.(tree := RecordPairs(m.tree, pairs));
    var (feed, at) := F.AddEvent(recorded.feed, SpentDraft(l, pairs));
    if at.None? then (recorded, None, true)
    else
      var fed := recorded.(feed := F.AddNullifiers(feed, l.ev.nfs));
      var (booked, ok) := if Consumer(l.ev.kind) then (fed, true) else Book(fed, SpentOp(l, pairs));
      (booked, if Withdrawal(l.ev.kind) then at else None, ok)
  }

  /** Disbursed: the ledger opens the authority tail only when one was published. */
  function Disburse(m: Mem, l: Log, s: Subtree, published: Option<Event>): (Mem, bool)
    requires l.ev.Disbursed?
    requires published.Some? ==>
               published.value.DisburseCiphertexts? && EnvelopeFits(L.OpDisburse, published.value.envelope)
  {
    var cts := if published.Some? then published.value.elements else [];
    var disclosure := D.VerifyDisclosure(cts, l.ev.disclosureHash, l.txHash, s.start);
    var slices := if cts == [] then [] else Consecutive(s.start, B);
    var (feed, at) :=
      F.AddEvent(m.feed,
                 F.Draft(KeyOf(l), l.blockNumber, F.DisburseEvent, slices, Some(disclosure), None, None, l.ev.payload));
    if at.None? then (m, true)
    else
      var fed := m.(feed := F.AddNullifiers(feed, [l.ev.nullifier]));
      if published.Some? && |cts| > 4 * B then Book(fed, BatchOp(l, s, published.value.envelope)) else (fed, true)
  }

  /** The published elements of a consumer batch. */
  function Elements(published: Option<Event>): seq<Felt>
    requires published.Some? ==> published.value.DisbursePrivDisclosure?
  {
    if published.Some? then published.value.elements else []
  }

  function PrivDraft(l: Log, s: Subtree, elements: seq<Felt>): F.Draft
    requires l.ev.DisbursedPriv?
  {
    var verdict := D.VerifyConsumerDisclosure(elements, l.ev.disclosureHash, s.subtreeRoot, l.txHash, s.start);
    var full := |elements| == 6 * B;
    F.Draft(KeyOf(l), l.blockNumber, F.DisbursePriv, if full then Consecutive(s.start, B) else [],
            Some(verdict.result), Some(s.start), if full then Some(elements[5 * B..6 * B]) else None, l.ev.payload)
  }

  function KemRecord(l: Log, s: Subtree): K.Recorded
    requires l.ev.DisbursedPriv?
  {
    K.Recorded(s.start, l.address, KeyOf(l), l.ev.chunkHashes, l.timestamp, B)
  }

  function DisbursePriv(m: Mem, l: Log, s: Subtree, published: Option<Event>): Mem
    requires l.ev.DisbursedPriv?
    requires published.Some? ==> published.value.DisbursePrivDisclosure?
  {
    var elements := Elements(published);
    var (feed, at) := F.AddEvent(m.feed, PrivDraft(l, s, elements));
    if at.None? then m
    else
      var verdict := D.VerifyConsumerDisclosure(elements, l.ev.disclosureHash, s.subtreeRoot, l.txHash, s.start);
      m.(feed := F.AddNullifiers(feed, [l.ev.nullifier]),
         kem := K.RecordBatch(m.kem, KemRecord(l, s)),
         tree := if verdict.leaves.Some? then M.FillBatch(m.tree, s.start, verdict.leaves.value, M.Public) else m.tree)
  }

  /** Attach an announcement to the withdrawal waiting for it, if it is a stealth one. */
  function Announce(m: Mem, queue: seq<nat>, ev: Event): Mem
    requires ev.WithdrawAnnouncement?
  {
    if queue != [] && queue[0] < |m.feed.feed| && ev.stealth
    then m.(feed := F.Announce(m.feed, queue[0], ev.announcement))
    else m
  }

  // ---- pass 2 ------------------------------------------------------------------------

  ghost predicate AllParsed(logs: seq<Log>) {
    forall i :: 0 <= i < |logs| ==> Parsed(logs[i])
  }

  lemma {:induction false} GateParsed(w: set<Address>, raw: seq<Log>)
    requires AllParsed(raw)
    ensures AllParsed(Gate(w, raw))
    decreases |raw|
  {
    hide Parsed;
    if raw != [] {
      GateParsed(Widened(w, raw[0]), raw[1..]);
    }
  }

  lemma {:induction false} PublishedIsParsed(logs: seq<Log>, tx: nat, start: nat)
    requires AllParsed(logs)
    ensures var c := PublishedOf(logs, tx, start, false); c.Some? ==> EnvelopeFits(L.OpDisburse, c.value.envelope)
  {
    if logs != [] {
      PublishedIsParsed(logs[..|logs| - 1], tx, start);
    }
  }

  lemma {:induction false} TakenLeaves(queue: seq<Pair>, ocs: seq<Felt>)
    requires TakePairs(queue, ocs).Some?
    ensures |TakePairs(queue, ocs).value| == |ocs| <= |queue|
    ensures TakePairs(queue, ocs).value == queue[..|ocs|]
  {
    if ocs != [] {
      TakenLeaves(queue[1..], ocs[1..]);
    }
  }

  /** A correlated log's effects. `all` is the range, for the pre-indexed publish logs. */
  function Effects(m: Mem, q: Queues, all: seq<Log>, l: Log, got: Match): (r: (Mem, Queues, bool))
    requires K.Valid(m.kem) && AllParsed(all) && Parsed(l)
    requires l.ev.Spent? ==> got.Landed? && |got.pairs| == |l.ev.ocs|
    requires l.ev.Disbursed? || l.ev.DisbursedPriv? ==> got.Attached?
    ensures K.Valid(r.0.kem)
  {
    match l.ev
    case Spent(_, _, _, _, _) =>
      var (m', at, ok) := Spend(m, l, got.pairs);
      (m', if at.Some? then q.(withdraws := Push(q.withdraws, l.txHash, at.value)) else q, ok)
    case WithdrawAnnouncement(_, _) =>
      (Announce(m, Waiting(q.withdraws, l.txHash), l.ev), q.(withdraws := Rest(q.withdraws, l.txHash, 1)), true)
    case Disbursed(_, _, _, _) =>
      PublishedIsParsed(all, l.txHash, got.subtree.start);
      var (m', ok) := Disburse(m, l, got.subtree, PublishedOf(all, l.txHash, got.subtree.start, false));
      (m', q, ok)
    case DisbursedPriv(_, _, _, _, _) =>
      K.RecordKeeps(m.kem, KemRecord(l, got.subtree));
      (DisbursePriv(m, l, got.subtree, PublishedOf(all, l.txHash, got.subtree.start, true)), q, true)
    case ModuleRegistered(a) =>
      var (modules, ok) := R.Apply(m.modules, KeyOf(l), a, true);
      (m.(modules := modules), q, ok)
    case ModuleRemoved(a) =>
      var (modules, ok) := R.Apply(m.modules, KeyOf(l), a, false);
      (m.(modules := modules), q, ok)
    case KemChunkAccepted(batchId, chunkIndex, data) =>
      var a := K.Accept(batchId, chunkIndex, data, KeyOf(l));
      K.AcceptKeeps(m.kem, a);
      var (kem, ok) := K.AcceptChunk(m.kem, a);
      (m.(kem := kem), q, ok)
    case _ => (m, q, true)
  }

  lemma CorrelateFits(q: Queues, modules: R.State, l: Log)
    ensures var got := Correlate(q, modules, l).1;
            got.Some? ==>
              && (l.ev.Spent? ==> got.value.Landed? && |got.value.pairs| == |l.ev.ocs|)
              && (l.ev.Disbursed? || l.ev.DisbursedPriv? ==> got.value.Attached?)
  {
    if l.ev.Spent? && TakePairs(Waiting(q.appended, l.txHash), l.ev.ocs).Some? {
      TakenLeaves(Waiting(q.appended, l.txHash), l.ev.ocs);
    }
  }

  function Step(m: Mem, q: Queues, all: seq<Log>, l: Log): (r: (Mem, Queues, bool))
    requires K.Valid(m.kem) && AllParsed(all) && Parsed(l)
    ensures K.Valid(r.0.kem)
  {
    var (q', got) := Correlate(q, m.modules, l);
    CorrelateFits(q, m.modules, l);
    if got.None? then (m, q', false) else Effects(m, q', all, l, got.value)
  }

  function Pass2(m: Mem, q: Queues, all: seq<Log>, logs: seq<Log>): (r: (Mem, Queues, bool))
    requires K.Valid(m.kem) && AllParsed(all) && AllParsed(logs)
    ensures K.Valid(r.0.kem)
    decreases |logs|
  {
    if logs == [] then (m, q, true)
    else
      var (m', q', ok) := Step(m, q, all, logs[0]);
      if ok then Pass2(m', q', all, logs[1..]) else (m', q', false)
  }

  /** applyLogs over the logs the gate let through: the read model left behind, the queues left over,
      and whether it returned normally. */
  function ApplyKept(m: Mem, logs: seq<Log>): (r: (Mem, Queues, bool))
    requires K.Valid(m.kem) && AllParsed(logs)
    ensures K.Valid(r.0.kem)
  {
    var (tree, ok) := Pass1(m.tree, logs);
    if ok then Pass2(m.(tree := tree), QueuesOf(logs), logs, logs)
    else (m.(tree := tree), QueuesOf(logs), false)
  }
}
