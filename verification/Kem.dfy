/** apps/indexer/src/kemchunks.ts: assembling a consumer batch's ciphertext chunks, and its status. */
module Kem {
  import opened Field
  import opened Tables
  import opened Chain

  const KEM_CT_BYTES: nat := 1088

  /** keccak256 of 0x-hex data; nothing is assumed of it. */
  const KECCAK: string -> int

  function Keccak(data: string): int {
    KECCAK(data)
  }

  datatype Batch = Batch(
    moduleAddr: Address,
    txHash: nat,
    chunkHashes: seq<int>,
    batchTimestamp: int,
    outputs: nat,
    chunks: seq<Option<string>>,
    accepted: seq<bool>,
    chunkTxs: seq<Option<nat>>)

  datatype ChunkRow = ChunkRow(batchId: int, chunkIndex: int, data: Option<string>, txHash: Option<nat>)

  /** A batch id stands for the batch object in the flush buffer. */
  datatype State = State(
    batches: map<int, Batch>,
    seen: set<Key>,
    pendingBatches: seq<int>,
    pendingChunks: seq<ChunkRow>)

  const EMPTY := State(map[], {}, [], [])

  datatype Recorded = Recorded(batchId: int, moduleAddr: Address, key: Key, chunkHashes: seq<int>, batchTimestamp: int,
                               outputs: nat)

  datatype Accept = Accept(batchId: int, chunkIndex: int, data: Option<string>, key: Key)

  function Fresh(r: Recorded): Batch {
    var k := |r.chunkHashes|;
    Batch(r.moduleAddr, r.key.txHash, r.chunkHashes, r.batchTimestamp, r.outputs,
          seq(k, _ => None), seq(k, _ => false), seq(k, _ => None))
  }

  function RecordBatch(s: State, r: Recorded): State {
    if r.key in s.seen || r.batchId in s.batches then s
    else s.(seen := s.seen + {r.key},
            batches := s.batches[r.batchId := Fresh(r)],
            pendingBatches := s.pendingBatches + [r.batchId])
  }

  /** The lengths agree, bytes are only held for accepted chunks, and they hash to the commitment. */
  ghost predicate BatchOk(b: Batch) {
    && |b.chunks| == |b.accepted| == |b.chunkTxs| == |b.chunkHashes|
    && (forall j :: 0 <= j < |b.chunks| && !b.accepted[j] ==> b.chunkTxs[j].None?)
    && forall j :: 0 <= j < |b.chunks| && b.chunks[j].Some? ==>
         b.accepted[j] && Keccak(b.chunks[j].value) == b.chunkHashes[j]
  }

  ghost predicate Valid(s: State) {
    forall id :: id in s.batches ==> BatchOk(s.batches[id])
  }

  function TakeChunk(b: Batch, j: nat, data: Option<string>, tx: Option<nat>): Batch
    requires j < |b.chunks| && j < |b.accepted| && j < |b.chunkTxs|
  {
    b.(accepted := b.accepted[j := true], chunks := b.chunks[j := data], chunkTxs := b.chunkTxs[j := tx])
  }

  /** The key is taken first; false is the throw over bytes that do not match the commitment. Every
      module-emitted inconsistency is dropped instead. */
  function AcceptChunk(s: State, a: Accept): (State, bool)
    requires Valid(s)
  {
    if a.key in s.seen then (s, true)
    else
      var keyed := s.(seen := s.seen + {a.key});
      if a.batchId !in s.batches then (keyed, true)
      else
        var b := s.batches[a.batchId];
        if !(0 <= a.chunkIndex < |b.chunkHashes|) then (keyed, true)
        else if b.accepted[a.chunkIndex] then (keyed, true)
        else if a.data.Some? && Keccak(a.data.value) != b.chunkHashes[a.chunkIndex] then (keyed, false)
        else
          var tx := Some(a.key.txHash);
          (keyed.(batches := s.batches[a.batchId := TakeChunk(b, a.chunkIndex, a.data, tx)],
                  pendingChunks := s.pendingChunks + [ChunkRow(a.batchId, a.chunkIndex, a.data, tx)]), true)
  }

  /** The boot-time re-fetch of an accepted chunk whose bytes are missing. */
  function AttachChunkData(s: State, batchId: int, chunkIndex: int, data: string): (State, bool)
    requires Valid(s)
  {
    if batchId !in s.batches then (s, true)
    else
      var b := s.batches[batchId];
      if !(0 <= chunkIndex < |b.accepted|) || !b.accepted[chunkIndex] || b.chunks[chunkIndex].Some? then (s, true)
      else if Keccak(data) != b.chunkHashes[chunkIndex] then (s, false)
      else
        (s.(batches := s.batches[batchId := b.(chunks := b.chunks[chunkIndex := Some(data)])],
            pendingChunks := s.pendingChunks + [ChunkRow(batchId, chunkIndex, Some(data), b.chunkTxs[chunkIndex])]),
              true)
  }

  // ---- status ------------------------------------------------------------------------

  datatype Status = Pending | Withheld | AcceptedUnassembled | Complete

  function StatusOf(b: Batch, now: int, grace: int): Status {
    if forall j :: 0 <= j < |b.chunks| ==> b.chunks[j].Some? then Complete
    else if forall j :: 0 <= j < |b.accepted| ==> b.accepted[j] then AcceptedUnassembled
    else if now - b.batchTimestamp > grace then Withheld
    else Pending
  }

  function Rank(s: Status): nat {
    match s
    case Pending => 0
    case Withheld => 1
    case AcceptedUnassembled => 2
    case Complete => 3
  }

  /** b' is b with more chunks in: nothing accepted is forgotten, no bytes are lost or altered. */
  ghost predicate Advances(b: Batch, b': Batch) {
    && b'.chunkHashes == b.chunkHashes && b'.batchTimestamp == b.batchTimestamp
    && b'.moduleAddr == b.moduleAddr && b'.txHash == b.txHash && b'.outputs == b.outputs
    && |b'.chunks| == |b.chunks| && |b'.accepted| == |b.accepted|
    && (forall j :: 0 <= j < |b.accepted| && b.accepted[j] ==> b'.accepted[j])
    && forall j :: 0 <= j < |b.chunks| && b.chunks[j].Some? ==> b'.chunks[j] == b.chunks[j]
  }

  ghost predicate AllAdvance(s: State, s': State) {
    forall id :: id in s.batches ==> id in s'.batches && Advances(s.batches[id], s'.batches[id])
  }

  /** Status only ever moves forward as time and chunks advance. */
  lemma StatusNeverRegresses(b: Batch, b': Batch, now: int, now': int, grace: int)
    requires BatchOk(b) && BatchOk(b') && Advances(b, b') && now <= now'
    ensures Rank(StatusOf(b, now, grace)) <= Rank(StatusOf(b', now', grace))
    ensures StatusOf(b, now, grace).Complete? <==> forall j :: 0 <= j < |b.chunks| ==> b.chunks[j].Some?
  {
    if forall j :: 0 <= j < |b.chunks| ==> b.chunks[j].Some? {
      assert forall j :: 0 <= j < |b'.chunks| ==> b'.chunks[j].Some?;
    } else if forall j :: 0 <= j < |b.accepted| ==> b.accepted[j] {
      assert forall j :: 0 <= j < |b'.accepted| ==> b'.accepted[j];
    }
  }

  /** The status, on the batch: complete with all bytes in, unassembled with all chunks accepted but some
      bytes missing, and otherwise withheld exactly once the grace period is over. */
  lemma StatusExact(b: Batch, now: int, grace: int)
    requires BatchOk(b)
    ensures var status := StatusOf(b, now, grace);
            var missing := exists j :: 0 <= j < |b.accepted| && !b.accepted[j];
            && (status.Complete? <==> forall j :: 0 <= j < |b.chunks| ==> b.chunks[j].Some?)
            && (status.AcceptedUnassembled? <==> !missing && exists j :: 0 <= j < |b.chunks| && b.chunks[j].None?)
            && (status.Withheld? <==> missing && now - b.batchTimestamp > grace)
            && (status.Pending? <==> missing && now - b.batchTimestamp <= grace)
  {
    if j :| 0 <= j < |b.accepted| && !b.accepted[j] {
      assert b.chunks[j].None?;
    }
  }

  lemma RecordKeeps(s: State, r: Recorded)
    requires Valid(s)
    ensures Valid(RecordBatch(s, r)) && AllAdvance(s, RecordBatch(s, r))
  {
  }

  lemma AcceptKeeps(s: State, a: Accept)
    requires Valid(s)
    ensures Valid(AcceptChunk(s, a).0) && AllAdvance(s, AcceptChunk(s, a).0)
  {
  }

  lemma AttachKeeps(s: State, batchId: int, chunkIndex: int, data: string)
    requires Valid(s)
    ensures Valid(AttachChunkData(s, batchId, chunkIndex, data).0)
    ensures AllAdvance(s, AttachChunkData(s, batchId, chunkIndex, data).0)
  {
  }

  /** Modules still owed chunk accepts on-chain: what keeps a removed module watched. */
  function PendingModules(s: State): set<Address> {
    set id | id in s.batches && Incomplete(s.batches[id]) :: s.batches[id].moduleAddr
  }

  predicate Incomplete(b: Batch) {
    exists j :: 0 <= j < |b.accepted| && !b.accepted[j]
  }

  /** Exactly the modules one of whose batches has a chunk not accepted yet. */
  lemma OwedIff(s: State, a: Address)
    ensures a in PendingModules(s) <==>
              exists id, j :: id in s.batches && s.batches[id].moduleAddr == a
                              && 0 <= j < |s.batches[id].accepted| && !s.batches[id].accepted[j]
  {
    if id, j :| id in s.batches && s.batches[id].moduleAddr == a
                && 0 <= j < |s.batches[id].accepted| && !s.batches[id].accepted[j] {
      assert Incomplete(s.batches[id]);
    }
  }

  /** An accept, on what it finds: a first-sight accept of an open chunk of a recorded batch is taken if
      its bytes are absent or hash to the commitment, and thrown over if they do not. Whatever else it
      is, it is dropped, and moves only the replay keys. */
  lemma AcceptExact(s: State, a: Accept)
    requires Valid(s)
    ensures var (s', ok) := AcceptChunk(s, a);
            var open := a.key !in s.seen && a.batchId in s.batches
                        && 0 <= a.chunkIndex < |s.batches[a.batchId].accepted|
                        && !s.batches[a.batchId].accepted[a.chunkIndex];
            var good := open && (a.data.Some? ==>
                                   Keccak(a.data.value) == s.batches[a.batchId].chunkHashes[a.chunkIndex]);
            && s'.seen == s.seen + {a.key} && s'.batches.Keys == s.batches.Keys
            && (ok <==> good || !open)
            && (!good ==> s'.batches == s.batches && s'.pendingChunks == s.pendingChunks)
            && (forall id :: id in s.batches && id != a.batchId ==> s'.batches[id] == s.batches[id])
            && (good ==>
                  var b, b' := s.batches[a.batchId], s'.batches[a.batchId];
                  && Advances(b, b') && |b'.chunkTxs| == |b.chunkTxs|
                  && b'.accepted[a.chunkIndex] && b'.chunks[a.chunkIndex] == a.data
                  && b'.chunkTxs[a.chunkIndex] == Some(a.key.txHash)
                  && forall j :: 0 <= j < |b.chunks| && j != a.chunkIndex ==>
                       && b'.accepted[j] == b.accepted[j] && b'.chunks[j] == b.chunks[j]
                       && b'.chunkTxs[j] == b.chunkTxs[j])
  {
  }

  /** A re-fetch, on what it finds: it fills in an accepted chunk whose bytes are missing if they hash to
      the commitment, throws if they do not, and is dropped for any other chunk. */
  lemma AttachExact(s: State, batchId: int, chunkIndex: int, data: string)
    requires Valid(s)
    ensures var (s', ok) := AttachChunkData(s, batchId, chunkIndex, data);
            var open := batchId in s.batches && 0 <= chunkIndex < |s.batches[batchId].accepted|
                        && s.batches[batchId].accepted[chunkIndex] && s.batches[batchId].chunks[chunkIndex].None?;
            var good := open && Keccak(data) == s.batches[batchId].chunkHashes[chunkIndex];
            && (ok <==> good || !open)
            && (!good ==> s' == s)
            && (good ==>
                  var b := s.batches[batchId];
                  && s'.seen == s.seen
                  && s'.batches == s.batches[batchId := b.(chunks := b.chunks[chunkIndex := Some(data)])])
  {
  }

  // ---- the retry that the source intends ---------------------------------------------

  /** A throw over corrupt bytes is meant to be retried with good ones. The retry lands exactly when
      the first attempt did not throw: the key taken before the check makes it a replay. */
  lemma RetryLandsIff(s: State, a: Accept, good: Option<string>)
    requires Valid(s) && a.key !in s.seen && a.batchId in s.batches
    requires 0 <= a.chunkIndex < |s.batches[a.batchId].chunkHashes| && !s.batches[a.batchId].accepted[a.chunkIndex]
    requires good.Some? ==> Keccak(good.value) == s.batches[a.batchId].chunkHashes[a.chunkIndex]
    ensures var (first, ok) := AcceptChunk(s, a);
            && Valid(first)
            && (ok <==> a.data.None? || Keccak(a.data.value) == s.batches[a.batchId].chunkHashes[a.chunkIndex])
            && var (second, again) := AcceptChunk(first, a.(data := good));
               && again && a.batchId in second.batches
               && |second.batches[a.batchId].accepted| == |s.batches[a.batchId].accepted|
               && (second.batches[a.batchId].accepted[a.chunkIndex] <==> ok)
  {
    AcceptKeeps(s, a);
  }

  // ---- assembly ----------------------------------------------------------------------

  function Strip0x(h: string): string {
    if |h| >= 2 && h[0] == '0' && (h[1] == 'x' || h[1] == 'X') then h[2..] else h
  }

  /** Chunks 0..K-1, prefixes stripped, joined. */
  function Joined(chunks: seq<string>): string {
    if chunks == [] then "" else Joined(chunks[..|chunks| - 1]) + Strip0x(chunks[|chunks| - 1])
  }

  /** The bytes of every chunk, once all are in. */
  function Bytes(chunks: seq<Option<string>>): (r: Option<seq<string>>)
    ensures r.Some? <==> forall j :: 0 <= j < |chunks| ==> chunks[j].Some?
    ensures r.Some? ==> |r.value| == |chunks| && forall j :: 0 <= j < |chunks| ==> chunks[j] == Some(r.value[j])
  {
    if chunks == [] then Some([])
    else
      var init, last := Bytes(chunks[..|chunks| - 1]), chunks[|chunks| - 1];
      if init.Some? && last.Some? then Some(init.value + [last.value]) else None
  }

  datatype Assembly = NotYet | WrongLength | Assembled(cts: seq<string>)

  /** `n` per-output ciphertexts in leaf order. */
  function Split(all: string, n: nat): (cts: seq<string>)
    requires |all| == n * KEM_CT_BYTES * 2
    ensures |cts| == n
    ensures forall i {:trigger cts[i]} :: 0 <= i < n ==>
              cts[i] == "0x" + all[i * KEM_CT_BYTES * 2..(i + 1) * KEM_CT_BYTES * 2]
  {
    if n == 0 then []
    else
      var w := (n - 1) * KEM_CT_BYTES * 2;
      Split(all[..w], n - 1) + ["0x" + all[w..]]
  }

  function AssembledOf(b: Batch): Assembly {
    var bytes := Bytes(b.chunks);
    if bytes.None? then NotYet
    else
      var all := Joined(bytes.value);
      if |all| != b.outputs * KEM_CT_BYTES * 2 then WrongLength else Assembled(Split(all, b.outputs))
  }

  lemma JoinOneMore(chunks: seq<string>, c: string)
    ensures Joined(chunks + [c]) == Joined(chunks) + Strip0x(c)
    ensures Strip0x("0x" + c) == c
  {
    assert (chunks + [c])[..|chunks|] == chunks;
  }

  lemma NothingJoined()
    ensures Joined([]) == ""
  {
  }

  lemma {:induction false} SplitJoins(all: string, n: nat)
    requires |all| == n * KEM_CT_BYTES * 2
    ensures Joined(Split(all, n)) == all
  {
    hide Strip0x, Joined;
    if n == 0 {
      NothingJoined();
    } else {
      var w := (n - 1) * KEM_CT_BYTES * 2;
      SplitJoins(all[..w], n - 1);
      JoinOneMore([], all[w..]);
      JoinOneMore(Split(all[..w], n - 1), "0x" + all[w..]);
      assert all == all[..w] + all[w..];
    }
  }

  /** Assembly succeeds exactly when every chunk is in and the bytes number outputs x 1088; the
      entries then spell exactly the chunk bytes, 1088 bytes each. */
  lemma AssemblyRoundTrip(b: Batch)
    ensures AssembledOf(b).NotYet? <==> exists j :: 0 <= j < |b.chunks| && b.chunks[j].None?
    ensures AssembledOf(b).Assembled? <==>
              Bytes(b.chunks).Some? && |Joined(Bytes(b.chunks).value)| == b.outputs * KEM_CT_BYTES * 2
    ensures AssembledOf(b).Assembled? ==>
              var cts := AssembledOf(b).cts;
              && |cts| == b.outputs
              && (forall i :: 0 <= i < |cts| ==> |Strip0x(cts[i])| == KEM_CT_BYTES * 2)
              && Joined(cts) == Joined(Bytes(b.chunks).value)
  {
    if AssembledOf(b).Assembled? {
      SplitJoins(Joined(Bytes(b.chunks).value), b.outputs);
    }
  }

  // ---- order-free arrival ------------------------------------------------------------

  function RunAccepts(s: State, log: seq<Accept>): State
    requires Valid(s)
    ensures Valid(RunAccepts(s, log))
  {
    if log == [] then s
    else
      var init := RunAccepts(s, log[..|log| - 1]);
      AcceptKeeps(init, log[|log| - 1]);
      AcceptChunk(init, log[|log| - 1]).0
  }

  /** The accept names a chunk of a recorded batch; anything else is noise. */
  predicate Aimed(s: State, a: Accept) {
    a.batchId in s.batches && 0 <= a.chunkIndex < |s.batches[a.batchId].chunkHashes|
  }

  /** First sightings, at most one per chunk, carrying the committed bytes or none. */
  ghost predicate Clean(s: State, log: seq<Accept>) {
    && (forall i :: 0 <= i < |log| ==> log[i].key !in s.seen)
    && (forall i, j :: 0 <= i < j < |log| ==> log[i].key != log[j].key)
    && (forall i, j :: 0 <= i < j < |log| && Aimed(s, log[i]) && Aimed(s, log[j]) ==>
          log[i].batchId != log[j].batchId || log[i].chunkIndex != log[j].chunkIndex)
    && (forall i :: 0 <= i < |log| && Aimed(s, log[i]) ==>
          var b := s.batches[log[i].batchId];
          && |b.accepted| == |b.chunkHashes| && !b.accepted[log[i].chunkIndex]
          && (log[i].data.Some? ==> Keccak(log[i].data.value) == b.chunkHashes[log[i].chunkIndex]))
  }

  /** What the log leaves at one chunk. */
  ghost predicate ChunkAfter(s: State, log: seq<Accept>, s': State, id: int, j: nat)
    requires Valid(s) && Valid(s') && id in s.batches && id in s'.batches
    requires |s'.batches[id].chunks| == |s.batches[id].chunks| && j < |s.batches[id].chunks|
  {
    var b, b' := s.batches[id], s'.batches[id];
    && (forall i :: 0 <= i < |log| && log[i].batchId == id && log[i].chunkIndex == j ==>
          b'.accepted[j] && b'.chunks[j] == log[i].data && b'.chunkTxs[j] == Some(log[i].key.txHash))
    && ((forall i :: 0 <= i < |log| ==> log[i].batchId != id || log[i].chunkIndex != j) ==>
          b'.accepted[j] == b.accepted[j] && b'.chunks[j] == b.chunks[j] && b'.chunkTxs[j] == b.chunkTxs[j])
  }

  function Keys(log: seq<Accept>): set<Key> {
    set i | 0 <= i < |log| :: log[i].key
  }

  lemma {:induction false} AcceptsAdvance(s: State, log: seq<Accept>)
    requires Valid(s)
    ensures var s' := RunAccepts(s, log);
            s'.batches.Keys == s.batches.Keys && s'.seen == s.seen + Keys(log) && AllAdvance(s, s')
  {
    if log != [] {
      var init, a := log[..|log| - 1], log[|log| - 1];
      AcceptsAdvance(s, init);
      AcceptKeeps(RunAccepts(s, init), a);
      assert Keys(log) == Keys(init) + {a.key};
    }
  }

  ghost predicate SameShape(s: State, s': State) {
    forall id :: id in s.batches ==> id in s'.batches && |s'.batches[id].chunks| == |s.batches[id].chunks|
  }

  /** `mid` with an aimed accept taken and noise dropped. */
  ghost function Landed(s: State, mid: State, a: Accept): map<int, Batch>
    requires Valid(s) && Valid(mid) && SameShape(s, mid)
  {
    if Aimed(s, a) then
      mid.batches[a.batchId := TakeChunk(mid.batches[a.batchId], a.chunkIndex, a.data, Some(a.key.txHash))]
    else mid.batches
  }

  /** In a clean log nothing before the last accept touched its chunk, so it lands. */
  lemma LastLands(s: State, log: seq<Accept>, mid: State)
    requires Valid(s) && log != [] && Clean(s, log) && mid == RunAccepts(s, log[..|log| - 1])
    requires Valid(mid) && SameShape(s, mid)
    requires var a := log[|log| - 1];
             Aimed(s, a) ==> ChunkAfter(s, log[..|log| - 1], mid, a.batchId, a.chunkIndex)
    ensures RunAccepts(s, log).batches == Landed(s, mid, log[|log| - 1])
  {
    var init, a := log[..|log| - 1], log[|log| - 1];
    AcceptsAdvance(s, init);
    assert a.key !in Keys(init);
    assert forall i :: 0 <= i < |init| ==> init[i] == log[i];
  }

  lemma {:induction false} AcceptsLandAt(s: State, log: seq<Accept>, id: int, j: nat)
    requires Valid(s) && Clean(s, log) && id in s.batches && j < |s.batches[id].chunks|
    ensures SameShape(s, RunAccepts(s, log))
    ensures ChunkAfter(s, log, RunAccepts(s, log), id, j)
    decreases |log|
  {
    AcceptsAdvance(s, log);
    if log != [] {
      var init, a := log[..|log| - 1], log[|log| - 1];
      CleanPrefix(s, log);
      AcceptsLandAt(s, init, id, j);
      if Aimed(s, a) {
        AcceptsLandAt(s, init, a.batchId, a.chunkIndex);
      }
      LastLands(s, log, RunAccepts(s, init));
      OneMoreLands(s, log, RunAccepts(s, init), RunAccepts(s, log), id, j);
    }
  }

  lemma CleanPrefix(s: State, log: seq<Accept>)
    requires log != [] && Clean(s, log)
    ensures Clean(s, log[..|log| - 1])
  {
  }

  lemma OneMoreLands(s: State, log: seq<Accept>, mid: State, s': State, id: int, j: nat)
    requires Valid(s) && Valid(mid) && Valid(s') && SameShape(s, mid) && SameShape(s, s')
    requires log != [] && Clean(s, log) && id in s.batches && j < |s.batches[id].chunks|
    requires ChunkAfter(s, log[..|log| - 1], mid, id, j) && s'.batches == Landed(s, mid, log[|log| - 1])
    ensures ChunkAfter(s, log, s', id, j)
  {
    var init, a := log[..|log| - 1], log[|log| - 1];
    assert forall i :: 0 <= i < |init| ==> init[i] == log[i];
    if a.batchId == id && a.chunkIndex == j {
      assert Aimed(s, a);
      forall i | 0 <= i < |init|
        ensures log[i].batchId != id || log[i].chunkIndex != j
      {
        assert Aimed(s, log[i]) || log[i].batchId != id || log[i].chunkIndex != j;
      }
    }
  }

  /** Accepts in any order, with any noise in between, leave the same batches. */
  lemma ArrivalOrderIsIrrelevant(s: State, log: seq<Accept>, log': seq<Accept>)
    requires Valid(s) && Clean(s, log) && Clean(s, log') && multiset(log) == multiset(log')
    ensures RunAccepts(s, log).batches == RunAccepts(s, log').batches
    ensures RunAccepts(s, log).seen == RunAccepts(s, log').seen
  {
    AcceptsAdvance(s, log);
    AcceptsAdvance(s, log');
    SameAccepts(log, log');
    forall id | id in s.batches
      ensures RunAccepts(s, log).batches[id] == RunAccepts(s, log').batches[id]
    {
      SameBatch(s, log, log', id);
    }
  }

  lemma SameAccepts(log: seq<Accept>, log': seq<Accept>)
    requires multiset(log) == multiset(log')
    ensures Keys(log) == Keys(log')
    ensures forall a :: a in log <==> a in log'
  {
    assert forall a :: a in log <==> a in multiset(log);
    assert forall a :: a in log' <==> a in multiset(log');
    assert forall k :: k in Keys(log) <==> exists a :: a in log && a.key == k;
    assert forall k :: k in Keys(log') <==> exists a :: a in log' && a.key == k;
  }

  lemma SameBatch(s: State, log: seq<Accept>, log': seq<Accept>, id: int)
    requires Valid(s) && Clean(s, log) && Clean(s, log') && id in s.batches
    requires forall a :: a in log <==> a in log'
    ensures id in RunAccepts(s, log).batches && id in RunAccepts(s, log').batches
    ensures RunAccepts(s, log).batches[id] == RunAccepts(s, log').batches[id]
  {
    AcceptsAdvance(s, log);
    AcceptsAdvance(s, log');
    var b, b' := RunAccepts(s, log).batches[id], RunAccepts(s, log').batches[id];
    forall j: nat | j < |s.batches[id].chunks|
      ensures b.accepted[j] == b'.accepted[j] && b.chunks[j] == b'.chunks[j] && b.chunkTxs[j] == b'.chunkTxs[j]
    {
      SameChunk(s, log, log', id, j);
    }
    assert b.chunks == b'.chunks && b.accepted == b'.accepted && b.chunkTxs == b'.chunkTxs;
  }

  lemma SameChunk(s: State, log: seq<Accept>, log': seq<Accept>, id: int, j: nat)
    requires Valid(s) && Clean(s, log) && Clean(s, log') && id in s.batches && j < |s.batches[id].chunks|
    requires forall a :: a in log <==> a in log'
    ensures var t, t' := RunAccepts(s, log).batches, RunAccepts(s, log').batches;
            && id in t && id in t' && |t[id].chunks| == |t'[id].chunks| == |s.batches[id].chunks|
            && BatchOk(t[id]) && BatchOk(t'[id])
            && t[id].accepted[j] == t'[id].accepted[j] && t[id].chunks[j] == t'[id].chunks[j]
            && t[id].chunkTxs[j] == t'[id].chunkTxs[j]
  {
    AcceptsLandAt(s, log, id, j);
    AcceptsLandAt(s, log', id, j);
    if i :| 0 <= i < |log| && log[i].batchId == id && log[i].chunkIndex == j {
      assert log[i] in log';
    } else {
      forall k | 0 <= k < |log'|
        ensures log'[k].batchId != id || log'[k].chunkIndex != j
      {
        assert log'[k] in log;
      }
    }
  }
}
