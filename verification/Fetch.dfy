/** From the two scans to the poll: what the merged scans leave out the gate would have dropped. */
module Fetch {
  import opened Chain
  import opened Ingest
  import opened Correlation
  import opened Runs
  import opened Watch
  import opened Scan

  /** The logs of these addresses. */
  function Only(logs: seq<Log>, addresses: set<Address>): seq<Log> {
    if logs == [] then []
    else
      var l := logs[|logs| - 1];
      Only(logs[..|logs| - 1], addresses) + if l.address in addresses then [l] else []
  }

  lemma {:induction false} OnlyAdds(a: seq<Log>, b: seq<Log>, addresses: set<Address>)
    ensures Only(a + b, addresses) == Only(a, addresses) + Only(b, addresses)
  {
    if b == [] {
      assert a + b == a;
    } else {
      assert (a + b)[..|a + b| - 1] == a + b[..|b| - 1];
      OnlyAdds(a, b[..|b| - 1], addresses);
    }
  }

  /** The gate does not miss the logs of addresses neither watched nor registered in the range. */
  lemma {:induction false} GateOfOnly(w: set<Address>, logs: seq<Log>, addresses: set<Address>)
    requires {POOL} + w + Registered(logs) <= addresses
    ensures Gate(w, Only(logs, addresses)) == Gate(w, logs)
    ensures Registered(Only(logs, addresses)) == Registered(logs)
  {
    hide Gate, Registered, Admitted, Widened;
    if logs != [] {
      var init, l := logs[..|logs| - 1], logs[|logs| - 1];
      var part := if l.address in addresses then [l] else [];
      assert logs == init + [l];
      RegisteredAdds(init, [l]);
      GateOfOnly(w, init, addresses);
      GateAdds(w, init, [l]);
      GateAdds(w, Only(init, addresses), part);
      RegisteredAdds(Only(init, addresses), part);
      if l.address !in addresses {
        GateDrops(w + Registered(init), l);
        GateNothing(w + Registered(init));
      }
    }
  }

  lemma GateNothing(w: set<Address>)
    ensures Gate(w, []) == [] && Registered([]) == {}
  {
  }

  lemma GateDrops(w: set<Address>, l: Log)
    requires l.address != POOL && l.address !in w
    ensures Gate(w, [l]) == [] && Registered([l]) == {}
  {
    hide Gate, Registered;
    OneRegistered(l);
    GateOne(w, l);
  }

  // ---- the blocks --------------------------------------------------------------------

  /** Everything the blocks hold that decodes, whoever emitted it. */
  function Everything(lo: nat, hi: int): seq<Log>
    decreases hi - lo
  {
    if hi < lo then [] else Everything(lo, hi - 1) + Decoded(BlockLogs(hi))
  }

  /** A log carries its emitter. */
  ghost predicate Addressed() {
    forall b: nat, i ::
      0 <= i < |BlockLogs(b)| && BlockLogs(b)[i].decoded.Some? ==>
        BlockLogs(b)[i].decoded.value.address == BlockLogs(b)[i].address
  }

  lemma {:induction false} KeptIsOnly(block: nat, addresses: set<Address>, n: nat)
    requires Addressed() && n <= |BlockLogs(block)|
    ensures Kept(BlockLogs(block)[..n], addresses) == Only(Decoded(BlockLogs(block)[..n]), addresses)
  {
    if n == 0 {
      assert BlockLogs(block)[..0] == [];
    } else {
      var all := BlockLogs(block);
      KeptIsOnly(block, addresses, n - 1);
      assert all[..n][..n - 1] == all[..n - 1];
      if all[n - 1].decoded.Some? {
        OnlyAdds(Decoded(all[..n - 1]), [all[n - 1].decoded.value], addresses);
        OnlyOne(all[n - 1].decoded.value, addresses);
      } else {
        assert Decoded(all[..n]) == Decoded(all[..n - 1]) && Kept(all[..n], addresses) == Kept(all[..n - 1], addresses);
      }
    }
  }

  lemma OnlyOne(l: Log, addresses: set<Address>)
    ensures Only([l], addresses) == if l.address in addresses then [l] else []
  {
    assert [l][..0] == [];
  }

  lemma {:induction false} LogsAreOnly(addresses: set<Address>, lo: nat, hi: int)
    requires Addressed()
    ensures Logs(addresses, lo, hi) == Only(Everything(lo, hi), addresses)
    decreases hi - lo
  {
    hide Addressed, Kept, Decoded, Only;
    if hi >= lo {
      LogsAreOnly(addresses, lo, hi - 1);
      KeptIsOnly(hi, addresses, |BlockLogs(hi)|);
      assert BlockLogs(hi)[..|BlockLogs(hi)|] == BlockLogs(hi);
      OnlyAdds(Everything(lo, hi - 1), Decoded(BlockLogs(hi)), addresses);
    } else {
      OnlyNothing(addresses);
    }
  }

  lemma OnlyNothing(addresses: set<Address>)
    ensures Only([], addresses) == []
  {
  }

  lemma {:induction false} PoolRegistersAll(logs: seq<Log>)
    ensures Registered(Only(logs, {POOL})) == Registered(logs)
  {
    if logs != [] {
      var init, l := logs[..|logs| - 1], logs[|logs| - 1];
      PoolRegistersAll(init);
      OneRegistered(l);
      if l.address == POOL {
        RegisteredAdds(Only(init, {POOL}), [l]);
      } else {
        assert Only(logs, {POOL}) == Only(init, {POOL});
      }
    }
  }

  // ---- what a poll is handed ---------------------------------------------------------

  /** The second scan's filter: the modules watched, and those the first scan found registered. */
  function SecondFilter(m: Mem, base: seq<Log>): set<Address> {
    Watched(m) + Registered(base)
  }

  /** getLogsChunked and the gate together. The two scans, merged in any way that sorts them, come out
      of the gate as the whole content of the blocks would, and as the chain's range does, if the groups
      of the range are what pool and modules left in those blocks. */
  lemma PollSeesTheRange(gs: seq<Group>, c: nat, n: nat, m: Mem, ours: set<Address>, from: nat, to: int,
                         merged: seq<Log>)
    requires AllWellFormed(gs) && c <= n <= |gs| && ChainOrdered() && Addressed()
    requires var second := SecondFilter(m, Logs({POOL}, from, to));
             && POOL !in second && second <= ours && POOL in ours
             && Sorted(merged) && multiset(merged) == multiset(Logs({POOL}, from, to) + Logs(second, from, to))
    requires Only(Everything(from, to), ours) == Range(gs, c, n)
    ensures Gate(Watched(m), merged) == Gate(Watched(m), Everything(from, to)) == Gate(Watched(m), Range(gs, c, n))
  {
    hide Gate, Registered, Range, ChainOrdered, Addressed, Sorted, Logs, Everything, Only, Watched;
    var second, all := SecondFilter(m, Logs({POOL}, from, to)), Everything(from, to);
    LogsAreOnly({POOL}, from, to);
    PoolRegistersAll(all);
    MergeIsTheChain({POOL}, second, from, to, merged);
    LogsAreOnly({POOL} + second, from, to);
    GateOfOnly(Watched(m), all, {POOL} + second);
    GateOfOnly(Watched(m), all, ours);
  }
}
