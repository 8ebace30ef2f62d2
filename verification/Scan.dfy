/** apps/indexer/src/ingest.ts scanRange and getLogsChunked: chunk, bisect on failure, merge two scans. */
module Scan {
  import opened Field
  import opened Chain
  import opened Ingest

  /** A log as the provider returns it: None where no event we model decodes. */
  datatype RawLog = RawLog(address: Address, decoded: Option<Log>)

  /** What each block holds. */
  const BLOCK_LOGS: nat -> seq<RawLog>

  /** The seed of the recursion. */
  const LOG_CHUNK: nat

  function BlockLogs(block: nat): seq<RawLog> {
    BLOCK_LOGS(block)
  }

  function Filtered(raw: seq<RawLog>, addresses: set<Address>): seq<RawLog> {
    if raw == [] then []
    else
      var r := raw[|raw| - 1];
      Filtered(raw[..|raw| - 1], addresses) + if r.address in addresses then [r] else []
  }

  /** The logs of blocks lo to hi from `addresses`, in block order. */
  function Answer(addresses: set<Address>, lo: nat, hi: int): seq<RawLog>
    decreases hi - lo
  {
    if hi < lo then [] else Answer(addresses, lo, hi - 1) + Filtered(BlockLogs(hi), addresses)
  }

  function Decoded(raw: seq<RawLog>): seq<Log> {
    if raw == [] then []
    else
      var r := raw[|raw| - 1];
      Decoded(raw[..|raw| - 1]) + if r.decoded.Some? then [r.decoded.value] else []
  }

  /** The logs of one block that a scan is after: of these addresses, and modelled. */
  function Kept(raw: seq<RawLog>, addresses: set<Address>): seq<Log> {
    if raw == [] then []
    else
      var r := raw[|raw| - 1];
      Kept(raw[..|raw| - 1], addresses) + if r.address in addresses && r.decoded.Some? then [r.decoded.value] else []
  }

  /** What a scan of [lo, hi] is for. */
  function Logs(addresses: set<Address>, lo: nat, hi: int): seq<Log>
    decreases hi - lo
  {
    if hi < lo then [] else Logs(addresses, lo, hi - 1) + Kept(BlockLogs(hi), addresses)
  }

  datatype Query = Query(lo: nat, hi: nat, answered: bool)

  /** The RPC: any query may fail; an answer is the whole range. */
  class Provider {
    var asked: seq<Query>

    constructor ()
      ensures asked == []
    {
      asked := [];
    }

    method GetLogs(addresses: set<Address>, lo: nat, hi: nat) returns (r: Option<seq<RawLog>>)
      modifies this
      ensures asked == old(asked) + [Query(lo, hi, r.Some?)]
      ensures r.Some? ==> r.value == Answer(addresses, lo, hi)
    {
      if * {
        r := None;
      } else {
        r := Some(Answer(addresses, lo, hi));
      }
      asked := asked + [Query(lo, hi, r.Some?)];
    }
  }

  lemma {:induction false} DecodedAdds(a: seq<RawLog>, b: seq<RawLog>)
    ensures Decoded(a + b) == Decoded(a) + Decoded(b)
  {
    if b == [] {
      assert a + b == a;
    } else {
      assert (a + b)[..|a + b| - 1] == a + b[..|b| - 1];
      DecodedAdds(a, b[..|b| - 1]);
    }
  }

  lemma {:induction false} LogsAdd(addresses: set<Address>, lo: nat, mid: nat, hi: int)
    requires lo <= mid + 1 && mid <= hi
    ensures Logs(addresses, lo, hi) == Logs(addresses, lo, mid) + Logs(addresses, mid + 1, hi)
    decreases hi - mid
  {
    if hi > mid {
      LogsAdd(addresses, lo, mid, hi - 1);
    }
  }

  lemma {:induction false} KeptIsDecoded(raw: seq<RawLog>, addresses: set<Address>)
    ensures Decoded(Filtered(raw, addresses)) == Kept(raw, addresses)
  {
    if raw != [] {
      var init, r := raw[..|raw| - 1], raw[|raw| - 1];
      KeptIsDecoded(init, addresses);
      if r.address in addresses {
        DecodedAdds(Filtered(init, addresses), [r]);
        assert [r][..0] == [];
      } else {
        assert Filtered(raw, addresses) == Filtered(init, addresses);
      }
    }
  }

  lemma {:induction false} AnswerHolds(addresses: set<Address>, lo: nat, hi: int)
    ensures Decoded(Answer(addresses, lo, hi)) == Logs(addresses, lo, hi)
    decreases hi - lo
  {
    if hi >= lo {
      AnswerHolds(addresses, lo, hi - 1);
      DecodedAdds(Answer(addresses, lo, hi - 1), Filtered(BlockLogs(hi), addresses));
      KeptIsDecoded(BlockLogs(hi), addresses);
    }
  }

  lemma {:induction false} KeptHolds(raw: seq<RawLog>, addresses: set<Address>, l: Log)
    ensures l in Kept(raw, addresses) <==>
              exists i :: 0 <= i < |raw| && raw[i].address in addresses && raw[i].decoded == Some(l)
  {
    if raw != [] {
      var n := |raw| - 1;
      KeptHolds(raw[..n], addresses, l);
      if l in Kept(raw[..n], addresses) {
        var i :| 0 <= i < n && raw[..n][i].address in addresses && raw[..n][i].decoded == Some(l);
        assert raw[i] == raw[..n][i];
      }
      if i :| 0 <= i < n && raw[i].address in addresses && raw[i].decoded == Some(l) {
        assert raw[i] == raw[..n][i];
      }
    }
  }

  /** A log of block `b`, of one of the addresses, that decodes. */
  ghost predicate Held(addresses: set<Address>, b: nat, l: Log) {
    exists i :: 0 <= i < |BlockLogs(b)| && BlockLogs(b)[i].address in addresses && BlockLogs(b)[i].decoded == Some(l)
  }

  /** A scan is after exactly what the blocks of its range hold of its addresses. */
  lemma {:induction false} LogsHold(addresses: set<Address>, lo: nat, hi: int, l: Log)
    ensures l in Logs(addresses, lo, hi) <==> exists b: nat :: lo <= b <= hi && Held(addresses, b, l)
    decreases hi - lo
  {
    hide Kept, Held;
    if hi >= lo {
      LogsHold(addresses, lo, hi - 1, l);
      KeptIsHeld(addresses, hi, l);
    }
  }

  lemma KeptIsHeld(addresses: set<Address>, b: nat, l: Log)
    ensures l in Kept(BlockLogs(b), addresses) <==> Held(addresses, b, l)
  {
    KeptHolds(BlockLogs(b), addresses, l);
  }

  /** Some query for one single block of the range failed. */
  predicate OneBlockFailed(asked: seq<Query>, since: nat, lo: nat, hi: int) {
    exists i :: since <= i < |asked| && !asked[i].answered && asked[i].lo == asked[i].hi && lo <= asked[i].lo <= hi
  }

  /** scanRange: `out` is what the recursion pushes into. */
  class Scanner {
    const rpc: Provider
    const addresses: set<Address>
    var out: seq<Log>

    constructor (rpc: Provider, addresses: set<Address>)
      ensures this.rpc == rpc && this.addresses == addresses && out == []
    {
      this.rpc, this.addresses, out := rpc, addresses, [];
    }

    /** walk: ask, and on failure halve. False is the rethrow. */
    method Walk(lo: nat, hi: nat) returns (ok: bool)
      requires lo <= hi
      modifies this`out, rpc
      ensures old(rpc.asked) <= rpc.asked
      ensures |rpc.asked| - |old(rpc.asked)| <= 2 * (hi - lo) + 1
      ensures ok ==> out == old(out) + Logs(addresses, lo, hi)
      ensures !ok ==> OneBlockFailed(rpc.asked, |old(rpc.asked)|, lo, hi)
      decreases hi - lo
    {
      hide Logs, Answer, Decoded;
      AnswerHolds(addresses, lo, hi);
      var raw := rpc.GetLogs(addresses, lo, hi);
      if raw.Some? {
        ok := true;
        PushDecoded(raw.value);
      } else if hi > lo {
        var mid := (lo + hi) / 2;
        LogsAdd(addresses, lo, mid, hi);
        ok := Walk(lo, mid);
        if ok {
          ok := Walk(mid + 1, hi);
        }
      } else {
        ok := false;
        assert rpc.asked[|old(rpc.asked)|] == Query(lo, hi, false);
      }
    }

    method PushDecoded(raw: seq<RawLog>)
      modifies this`out
      ensures out == old(out) + Decoded(raw)
    {
      var i := 0;
      assert raw[..0] == [];
      while i < |raw|
        invariant i <= |raw| && out == old(out) + Decoded(raw[..i])
      {
        assert raw[..i + 1][..i] == raw[..i];
        if raw[i].decoded.Some? {
          out := out + [raw[i].decoded.value];
        }
        i := i + 1;
      }
      assert raw[..|raw|] == raw;
    }

    method WalkChunks(lo: nat, to: int) returns (ok: bool)
      requires LOG_CHUNK >= 1
      modifies this`out, rpc
      ensures old(rpc.asked) <= rpc.asked
      ensures ok ==> out == old(out) + Logs(addresses, lo, to)
      ensures !ok ==> OneBlockFailed(rpc.asked, |old(rpc.asked)|, lo, to)
      decreases if lo <= to then to - lo + 1 else 0
    {
      if lo > to {
        return true;
      }
      var hi := if lo + LOG_CHUNK - 1 < to then lo + LOG_CHUNK - 1 else to;
      ok := Walk(lo, hi);
      if ok {
        ok := WalkChunks(lo + LOG_CHUNK, to);
        if hi == to {
          assert Logs(addresses, lo + LOG_CHUNK, to) == [];
        } else {
          LogsAdd(addresses, lo, hi, to);
        }
      }
    }
  }

  /** Every block's logs exactly once and in order, or a failure pinned to one block. */
  method ScanRange(rpc: Provider, addresses: set<Address>, from: nat, to: int) returns (logs: Option<seq<Log>>)
    requires LOG_CHUNK >= 1
    modifies rpc
    ensures logs.Some? ==> logs.value == Logs(addresses, from, to)
    ensures logs.None? ==> OneBlockFailed(rpc.asked, |old(rpc.asked)|, from, to)
  {
    var scanner := new Scanner(rpc, addresses);
    var ok := scanner.WalkChunks(from, to);
    logs := if ok then Some(scanner.out) else None;
  }

  // ---- merging the two scans ---------------------------------------------------------

  /** The sort key. */
  predicate Before(a: Log, b: Log) {
    a.blockNumber < b.blockNumber || (a.blockNumber == b.blockNumber && a.logIndex < b.logIndex)
  }

  ghost predicate Sorted(logs: seq<Log>) {
    forall i, j :: 0 <= i < j < |logs| ==> !Before(logs[j], logs[i])
  }

  ghost predicate StrictlySorted(logs: seq<Log>) {
    forall i, j :: 0 <= i < j < |logs| ==> Before(logs[i], logs[j])
  }

  /** A block's logs carry its number and ascending indices. */
  ghost predicate ChainOrdered() {
    && (forall b: nat, i :: 0 <= i < |BlockLogs(b)| && BlockLogs(b)[i].decoded.Some? ==>
        BlockLogs(b)[i].decoded.value.blockNumber == b)
    && (forall b: nat, i, j ::
          0 <= i < j < |BlockLogs(b)| && BlockLogs(b)[i].decoded.Some? && BlockLogs(b)[j].decoded.Some? ==>
            BlockLogs(b)[i].decoded.value.logIndex < BlockLogs(b)[j].decoded.value.logIndex)
  }

  lemma {:induction false} KeptSplits(raw: seq<RawLog>, a: set<Address>, b: set<Address>)
    requires a !! b
    ensures multiset(Kept(raw, a + b)) == multiset(Kept(raw, a)) + multiset(Kept(raw, b))
  {
    if raw != [] {
      KeptSplits(raw[..|raw| - 1], a, b);
    }
  }

  lemma {:induction false} LogsSplit(a: set<Address>, b: set<Address>, lo: nat, hi: int)
    requires a !! b
    ensures multiset(Logs(a + b, lo, hi)) == multiset(Logs(a, lo, hi)) + multiset(Logs(b, lo, hi))
    decreases hi - lo
  {
    hide Kept;
    if hi >= lo {
      LogsSplit(a, b, lo, hi - 1);
      KeptSplits(BlockLogs(hi), a, b);
      JoinSplits(Logs(a + b, lo, hi - 1), Logs(a, lo, hi - 1), Logs(b, lo, hi - 1),
                 Kept(BlockLogs(hi), a + b), Kept(BlockLogs(hi), a), Kept(BlockLogs(hi), b));
    }
  }

  lemma JoinSplits(x: seq<Log>, xa: seq<Log>, xb: seq<Log>, y: seq<Log>, ya: seq<Log>, yb: seq<Log>)
    requires multiset(x) == multiset(xa) + multiset(xb) && multiset(y) == multiset(ya) + multiset(yb)
    ensures multiset(x + y) == multiset(xa + ya) + multiset(xb + yb)
  {
  }

  lemma AppendSorted(was: seq<Log>, l: Log)
    requires StrictlySorted(was) && forall i :: 0 <= i < |was| ==> Before(was[i], l)
    ensures StrictlySorted(was + [l])
  {
  }

  /** The kept logs of a block's first `n` are strictly ascending, and among those. */
  lemma {:induction false} BlockSorted(block: nat, a: set<Address>, n: nat)
    requires ChainOrdered() && n <= |BlockLogs(block)|
    ensures var logs := Kept(BlockLogs(block)[..n], a);
            && StrictlySorted(logs)
            && forall l :: l in logs ==>
                 l.blockNumber == block && exists j :: 0 <= j < n && BlockLogs(block)[j].decoded == Some(l)
  {
    hide StrictlySorted, Before;
    if n > 0 {
      BlockSorted(block, a, n - 1);
      var all := BlockLogs(block);
      var was, r := Kept(all[..n - 1], a), all[n - 1];
      assert all[..n][..n - 1] == all[..n - 1];
      if r.address in a && r.decoded.Some? {
        forall i | 0 <= i < |was|
          ensures Before(was[i], r.decoded.value)
        {
          assert was[i] in was;
          var j :| 0 <= j < n - 1 && all[j].decoded == Some(was[i]);
          InBlockOrder(block, j, n - 1);
        }
        AppendSorted(was, r.decoded.value);
        assert all[n - 1].decoded == Some(r.decoded.value);
      } else {
        assert Kept(all[..n], a) == was;
      }
    } else {
      NoneSorted();
      assert BlockLogs(block)[..0] == [];
    }
  }

  lemma NoneSorted()
    ensures StrictlySorted([])
  {
  }

  lemma InBlockOrder(block: nat, i: nat, j: nat)
    requires ChainOrdered() && i < j < |BlockLogs(block)| && BlockLogs(block)[i].decoded.Some?
    requires BlockLogs(block)[j].decoded.Some?
    ensures Before(BlockLogs(block)[i].decoded.value, BlockLogs(block)[j].decoded.value)
  {
  }

  lemma JoinSorted(x: seq<Log>, y: seq<Log>, block: nat)
    requires StrictlySorted(x) && StrictlySorted(y)
    requires (forall l :: l in x ==> l.blockNumber < block) && (forall l :: l in y ==> l.blockNumber == block)
    ensures StrictlySorted(x + y) && forall l :: l in x + y ==> l.blockNumber <= block
  {
    forall i, j | 0 <= i < j < |x + y|
      ensures Before((x + y)[i], (x + y)[j])
    {
      if i < |x| <= j {
        assert x[i] in x && y[j - |x|] in y;
      }
    }
  }

  lemma {:induction false} LogsSorted(a: set<Address>, lo: nat, hi: int)
    requires ChainOrdered()
    ensures StrictlySorted(Logs(a, lo, hi)) && forall l :: l in Logs(a, lo, hi) ==> l.blockNumber <= hi
    decreases hi - lo
  {
    hide ChainOrdered, StrictlySorted, Kept;
    if hi >= lo {
      LogsSorted(a, lo, hi - 1);
      BlockSorted(hi, a, |BlockLogs(hi)|);
      assert BlockLogs(hi)[..|BlockLogs(hi)|] == BlockLogs(hi);
      JoinSorted(Logs(a, lo, hi - 1), Kept(BlockLogs(hi), a), hi);
    } else {
      NoneSorted();
    }
  }

  lemma LastIsLast(strict: seq<Log>, sorted: seq<Log>)
    requires StrictlySorted(strict) && Sorted(sorted) && multiset(strict) == multiset(sorted) && strict != []
    ensures sorted != [] && sorted[|sorted| - 1] == strict[|strict| - 1]
  {
    assert |strict| == |multiset(strict)| == |multiset(sorted)| == |sorted|;
    var a, b := strict[|strict| - 1], sorted[|sorted| - 1];
    assert a in multiset(sorted) && b in multiset(strict);
    var i :| 0 <= i < |sorted| && sorted[i] == a;
    var j :| 0 <= j < |strict| && strict[j] == b;
    assert j < |strict| - 1 ==> Before(b, a);
    assert i < |sorted| - 1 ==> !Before(b, a);
  }

  lemma DropLast(s: seq<Log>)
    requires s != []
    ensures multiset(s[..|s| - 1]) == multiset(s) - multiset{s[|s| - 1]}
    ensures s == s[..|s| - 1] + [s[|s| - 1]]
  {
    assert s == s[..|s| - 1] + [s[|s| - 1]];
  }

  lemma StillSorted(strict: seq<Log>, sorted: seq<Log>)
    requires StrictlySorted(strict) && Sorted(sorted) && strict != [] && sorted != []
    ensures StrictlySorted(strict[..|strict| - 1]) && Sorted(sorted[..|sorted| - 1])
  {
  }

  lemma {:induction false} SortIsUnique(strict: seq<Log>, sorted: seq<Log>)
    requires StrictlySorted(strict) && Sorted(sorted) && multiset(strict) == multiset(sorted)
    ensures strict == sorted
  {
    hide StrictlySorted, Sorted;
    if strict != [] {
      LastIsLast(strict, sorted);
      DropLast(strict);
      DropLast(sorted);
      StillSorted(strict, sorted);
      SortIsUnique(strict[..|strict| - 1], sorted[..|sorted| - 1]);
    } else {
      assert |multiset(sorted)| == 0;
    }
  }

  /** However the sort breaks no ties, the merged scans are the chain's logs of both address sets, each
      once and in chain order. */
  lemma MergeIsTheChain(base: set<Address>, watch: set<Address>, from: nat, to: int, merged: seq<Log>)
    requires ChainOrdered() && base !! watch && Sorted(merged)
    requires multiset(merged) == multiset(Logs(base, from, to) + Logs(watch, from, to))
    ensures merged == Logs(base + watch, from, to)
  {
    LogsSplit(base, watch, from, to);
    LogsSorted(base + watch, from, to);
    SortIsUnique(Logs(base + watch, from, to), merged);
  }
}
