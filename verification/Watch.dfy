/** The watch-set: which emitters a poll scans for and lets in, and what happens when a retry looks
    at a range with a watch-set the first attempt already moved. */
module Watch {
  import opened Field
  import opened Chain
  import opened Ingest
  import opened Correlation
  import opened Effects
  import opened Runs
  import opened Recording
  import K = Kem
  import R = Registry

  /** The modules a range registers. */
  function Registered(logs: seq<Log>): set<Address> {
    if logs == [] then {}
    else Registered(logs[..|logs| - 1]) + Widened({}, logs[|logs| - 1])
  }

  /** The addresses the two scans of getLogsChunked filter on. */
  function ScanFilter(m: Mem, base: seq<Log>): set<Address> {
    {POOL} + Watched(m) + Registered(base)
  }

  // ---- what the gate lets in ---------------------------------------------------------

  lemma {:induction false} RegisteredAdds(a: seq<Log>, b: seq<Log>)
    ensures Registered(a + b) == Registered(a) + Registered(b)
  {
    if b == [] {
      assert a + b == a;
    } else {
      assert (a + b)[..|a + b| - 1] == a + b[..|b| - 1];
      RegisteredAdds(a, b[..|b| - 1]);
    }
  }

  lemma OneRegistered(l: Log)
    ensures Registered([l]) == Widened({}, l)
  {
    assert [l][..0] == [];
  }

  lemma {:induction false} GateAdds(watched: set<Address>, a: seq<Log>, b: seq<Log>)
    ensures Gate(watched, a + b) == Gate(watched, a) + Gate(watched + Registered(a), b)
    decreases |a|
  {
    if a == [] {
      assert a + b == b && watched + {} == watched;
    } else {
      var now := Widened(watched, a[0]);
      assert (a + b)[1..] == a[1..] + b && a == [a[0]] + a[1..];
      GateAdds(now, a[1..], b);
      RegisteredAdds([a[0]], a[1..]);
      OneRegistered(a[0]);
      assert now + Registered(a[1..]) == watched + Registered(a);
    }
  }

  /** Log `i` may be acted on. The pool's own logs are, whatever the range, unless they are of a module's
      family; a module's logs are if they are, and it is watched from the start or was registered, by
      the pool, no later than that log. */
  ghost predicate MayEnter(watched: set<Address>, raw: seq<Log>, i: nat)
    requires i < |raw|
  {
    var a, ev := raw[i].address, raw[i].ev;
    var onlyModules := ev.DisbursedPriv? || ev.DisbursePrivDisclosure? || ev.KemChunkAccepted?
                       || (ev.Spent? && TwinKind(ev.kind));
    if a == POOL then !onlyModules
    else
      && (onlyModules || ev.WithdrawAnnouncement?)
      && (a in watched || exists j :: 0 <= j <= i && raw[j].address == POOL && raw[j].ev == ModuleRegistered(a))
  }

  lemma {:induction false} RegisteredIff(raw: seq<Log>, a: Address)
    ensures a in Registered(raw) <==>
              exists j :: 0 <= j < |raw| && raw[j].address == POOL && raw[j].ev == ModuleRegistered(a)
  {
    if raw != [] {
      var n := |raw| - 1;
      RegisteredIff(raw[..n], a);
      if a in Registered(raw[..n]) {
        var j :| 0 <= j < n && raw[..n][j].address == POOL && raw[..n][j].ev == ModuleRegistered(a);
        assert raw[j] == raw[..n][j];
      }
    }
  }

  lemma EntersIff(watched: set<Address>, raw: seq<Log>, i: nat)
    requires i < |raw|
    ensures MayEnter(watched, raw, i) <==> Admitted(raw[i], watched + Registered(raw[..i + 1]))
  {
    hide Registered;
    var heard := raw[..i + 1];
    RegisteredIff(heard, raw[i].address);
    assert forall j :: 0 <= j <= i ==> heard[j] == raw[j];
  }

  /** The places of the logs that may be acted on, among the first `n`. */
  ghost function LetIn(watched: set<Address>, raw: seq<Log>, n: nat): (at: seq<nat>)
    requires n <= |raw|
    ensures (forall k :: 0 <= k < |at| ==> at[k] < n) && forall k, l :: 0 <= k < l < |at| ==> at[k] < at[l]
    ensures forall i: nat :: i in at <==> i < n && MayEnter(watched, raw, i)
  {
    if n == 0 then [] else LetIn(watched, raw, n - 1) + if MayEnter(watched, raw, n - 1) then [n - 1] else []
  }

  /** The gate keeps exactly the logs that may be acted on, each once and in order. */
  lemma {:induction false} GateIsExact(watched: set<Address>, raw: seq<Log>, n: nat)
    requires n <= |raw|
    ensures var kept, at := Gate(watched, raw[..n]), LetIn(watched, raw, n);
            |kept| == |at| && forall k {:trigger at[k]} :: 0 <= k < |at| ==> kept[k] == raw[at[k]]
  {
    hide Gate, Registered, Admitted, MayEnter;
    if n == 0 {
      NothingEnters(watched, raw);
    } else {
      GateIsExact(watched, raw, n - 1);
      assert raw[..n] == raw[..n - 1] + [raw[n - 1]];
      GateAdds(watched, raw[..n - 1], [raw[n - 1]]);
      RegisteredAdds(raw[..n - 1], [raw[n - 1]]);
      GateOne(watched + Registered(raw[..n - 1]), raw[n - 1]);
      EntersIff(watched, raw, n - 1);
      assert watched + Registered(raw[..n - 1]) + Registered([raw[n - 1]]) == watched + Registered(raw[..n]);
    }
  }

  lemma NothingEnters(watched: set<Address>, raw: seq<Log>)
    ensures Gate(watched, raw[..0]) == []
  {
  }

  /** Nothing reaches a handler but pool events of the pool and module events of an emitter watched
      from the start or registered by the pool no later than that log. */
  lemma GateIsSound(watched: set<Address>, raw: seq<Log>, l: Log)
    requires l in Gate(watched, raw)
    ensures exists i :: 0 <= i < |raw| && raw[i] == l && MayEnter(watched, raw, i)
                        && Admitted(l, watched + Registered(raw[..i + 1]))
  {
    hide Gate, Registered, Admitted, MayEnter;
    var kept, at := Gate(watched, raw), LetIn(watched, raw, |raw|);
    GateIsExact(watched, raw, |raw|);
    assert raw[..|raw|] == raw;
    var k :| 0 <= k < |kept| && kept[k] == l;
    assert at[k] in at;
    EntersIff(watched, raw, at[k]);
  }

  /** The watch-set holds the registered modules and those, once registered, that owe a chunk accept. */
  lemma WatchedIff(m: Mem, a: Address)
    ensures a in Watched(m) <==>
              a in m.modules.byAddress
              && (m.modules.byAddress[a]
                  || exists id, j :: id in m.kem.batches && m.kem.batches[id].moduleAddr == a
                                     && 0 <= j < |m.kem.batches[id].accepted| && !m.kem.batches[id].accepted[j])
  {
    hide K.PendingModules;
    K.OwedIff(m.kem, a);
  }

  /** A module neither registered nor owed an accept gets nothing past the gate unless the range registers
      it first. */
  lemma GoneModuleIsDropped(m: Mem, raw: seq<Log>, a: Address)
    requires a != POOL && !(a in m.modules.byAddress && m.modules.byAddress[a])
    requires !exists id, j :: id in m.kem.batches && m.kem.batches[id].moduleAddr == a
                              && 0 <= j < |m.kem.batches[id].accepted| && !m.kem.batches[id].accepted[j]
    requires forall j :: 0 <= j < |raw| && raw[j].address == POOL ==> raw[j].ev != ModuleRegistered(a)
    ensures a !in Watched(m)
    ensures forall l :: l in Gate(Watched(m), raw) ==> l.address != a
  {
    hide Watched, Gate;
    WatchedIff(m, a);
    forall l | l in Gate(Watched(m), raw)
      ensures l.address != a
    {
      GateIsSound(Watched(m), raw, l);
    }
  }

  /** Every log's emitter is entitled at its place in the range. */
  predicate AllAdmitted(watched: set<Address>, logs: seq<Log>) {
    logs == [] ||
    (&& AllAdmitted(watched, logs[..|logs| - 1])
     && Admitted(logs[|logs| - 1], watched + Registered(logs)))
  }

  lemma {:induction false} GateShortens(watched: set<Address>, logs: seq<Log>)
    ensures |Gate(watched, logs)| <= |logs|
    decreases |logs|
  {
    if logs != [] {
      GateShortens(Widened(watched, logs[0]), logs[1..]);
    }
  }

  /** The whole range gets in exactly when every log's emitter is entitled at its place. */
  lemma {:induction false} GateAdmitsAllIff(watched: set<Address>, logs: seq<Log>)
    ensures Gate(watched, logs) == logs <==> AllAdmitted(watched, logs)
  {
    hide Gate, Admitted, Registered, Widened;
    if logs == [] {
      GateShortens(watched, logs);
    } else {
      var init, l := logs[..|logs| - 1], logs[|logs| - 1];
      assert logs == init + [l];
      GateAdmitsAllIff(watched, init);
      GateShortens(watched, init);
      GateAdds(watched, init, [l]);
      RegisteredAdds(init, [l]);
      GateOne(watched + Registered(init), l);
      assert watched + Registered(init) + Registered([l]) == watched + Registered(logs);
      SplitLast(Gate(watched, init), init, l);
    }
  }

  lemma SplitLast(kept: seq<Log>, init: seq<Log>, l: Log)
    requires |kept| <= |init|
    ensures kept + [l] == init + [l] <==> kept == init
    ensures kept + [] != init + [l]
  {
    if kept + [l] == init + [l] {
      assert |kept| == |init|;
      assert kept == (kept + [l])[..|kept|] == (init + [l])[..|init|] == init;
    }
    assert |kept + []| < |init + [l]|;
  }

  lemma GateOne(watched: set<Address>, l: Log)
    ensures Gate(watched, [l]) == if Admitted(l, watched + Registered([l])) then [l] else []
  {
    OneRegistered(l);
    assert [l][1..] == [];
    assert watched + Widened({}, l) == Widened(watched, l);
  }

  // ---- watch-set completeness --------------------------------------------------------

  /** Modules emit ops only while registered, and chunk accepts only for their own incomplete batch. */
  ghost predicate Entitled(m: Mem, g: Group)
    requires WellFormed(g)
  {
    && (AnchorOf(g).Some? ==> g.emitter != POOL && R.IsRegistered(m.modules, g.emitter))
    && (g.AcceptGroup? ==>
          && g.emitter != POOL && g.batchId in m.kem.batches
          && m.kem.batches[g.batchId].moduleAddr == g.emitter && K.Incomplete(m.kem.batches[g.batchId]))
  }

  /** Everybody who may still emit is watched. */
  ghost predicate Covers(watched: set<Address>, m: Mem) {
    && (forall a :: R.IsRegistered(m.modules, a) ==> a in watched)
    && (forall id :: id in m.kem.batches && K.Incomplete(m.kem.batches[id]) ==> m.kem.batches[id].moduleAddr in watched)
  }

  ghost predicate OwnersKnown(m: Mem) {
    forall id :: id in m.kem.batches ==> R.IsKnown(m.modules, m.kem.batches[id].moduleAddr)
  }

  lemma WatchedCovers(m: Mem)
    requires OwnersKnown(m)
    ensures Covers(Watched(m), m)
  {
    forall id | id in m.kem.batches && K.Incomplete(m.kem.batches[id])
      ensures m.kem.batches[id].moduleAddr in Watched(m)
    {
      assert R.IsKnown(m.modules, m.kem.batches[id].moduleAddr);
    }
  }

  /** What a group adds to the watch-set. */
  function Adds(g: Group): set<Address> {
    if g.RegistryGroup? && g.registered then {g.moduleAddr} else {}
  }

  lemma KemRecordCovers(s: K.State, r: K.Recorded, id: int)
    requires id in K.RecordBatch(s, r).batches
    ensures (id in s.batches && K.RecordBatch(s, r).batches[id] == s.batches[id]) ||
            K.RecordBatch(s, r).batches[id].moduleAddr == r.moduleAddr
  {
  }

  lemma AcceptCovers(s: K.State, a: K.Accept, id: int)
    requires K.Valid(s) && id in K.AcceptChunk(s, a).0.batches
    ensures id in s.batches && K.AcceptChunk(s, a).0.batches[id].moduleAddr == s.batches[id].moduleAddr
    ensures K.Incomplete(K.AcceptChunk(s, a).0.batches[id]) ==> K.Incomplete(s.batches[id])
  {
    K.AcceptKeeps(s, a);
    if K.Incomplete(K.AcceptChunk(s, a).0.batches[id]) {
      var j :| 0 <= j < |K.AcceptChunk(s, a).0.batches[id].accepted| && !K.AcceptChunk(s, a).0.batches[id].accepted[j];
      assert !s.batches[id].accepted[j];
    }
  }

  lemma StillCovers(watched: set<Address>, m: Mem, g: Group)
    requires K.Valid(m.kem) && WellFormed(g) && Covers(watched, m) && OwnersKnown(m) && Entitled(m, g)
    ensures Covers(watched + Adds(g), GroupEffect(m, g).0) && OwnersKnown(GroupEffect(m, g).0)
  {
    hide GroupEffect, K.AcceptChunk, K.RecordBatch, K.Incomplete, FilledOrNot, PairsOf;
    match g {
      case SpendGroup(_, _, _, _, _, _, _, _, _, _) => SpendShape(m, g);
      case BatchGroup(_, _, _, _, _, _) => BatchShape(m, g);
      case PrivGroup(_, _, _, _, _, _, _, _) =>
        PrivShape(m, g);
        PrivCovers(watched, m, g);
      case RegistryGroup(_, a, registered) =>
        StreamShape(m, g);
      case AcceptGroup(_, _, batchId, chunkIndex, data) =>
        StreamShape(m, g);
        AcceptStillCovers(watched, m, GroupEffect(m, g).0, K.Accept(batchId, chunkIndex, data, GroupKey(g)));
    }
  }

  lemma AcceptStillCovers(watched: set<Address>, m: Mem, m': Mem, a: K.Accept)
    requires K.Valid(m.kem) && Covers(watched, m) && OwnersKnown(m) && m'.modules == m.modules
    requires m'.kem == K.AcceptChunk(m.kem, a).0
    ensures Covers(watched, m') && OwnersKnown(m')
  {
    hide K.AcceptChunk, K.Incomplete;
    forall id | id in m'.kem.batches
      ensures R.IsKnown(m'.modules, m'.kem.batches[id].moduleAddr)
      ensures K.Incomplete(m'.kem.batches[id]) ==> m'.kem.batches[id].moduleAddr in watched
    {
      AcceptCovers(m.kem, a, id);
    }
  }

  lemma PrivCovers(watched: set<Address>, m: Mem, g: Group)
    requires K.Valid(m.kem) && WellFormed(g) && g.PrivGroup? && Covers(watched, m) && OwnersKnown(m) && Entitled(m, g)
    ensures Covers(watched, GroupEffect(m, g).0) && OwnersKnown(GroupEffect(m, g).0)
  {
    hide GroupEffect, K.RecordBatch, K.Incomplete, FilledOrNot;
    PrivShape(m, g);
    var m' := GroupEffect(m, g).0;
    forall id | id in m'.kem.batches
      ensures R.IsKnown(m'.modules, m'.kem.batches[id].moduleAddr)
      ensures K.Incomplete(m'.kem.batches[id]) ==> m'.kem.batches[id].moduleAddr in watched
    {
      if m'.kem != m.kem {
        KemRecordCovers(m.kem, KemRecord(MainLog(g), g.s), id);
      }
    }
  }

  // ---- a group at the gate -----------------------------------------------------------

  predicate Plain(l: Log, watched: set<Address>) {
    if l.address == POOL then PoolEvent(l.ev) && !l.ev.ModuleRegistered? else l.address in watched && ModuleEvent(l.ev)
  }

  lemma {:induction false} PlainGetsIn(watched: set<Address>, logs: seq<Log>)
    requires forall i :: 0 <= i < |logs| ==> Plain(logs[i], watched)
    ensures Gate(watched, logs) == logs && Registered(logs) == {}
  {
    if logs == [] {
    } else {
      var init, l := logs[..|logs| - 1], logs[|logs| - 1];
      PlainGetsIn(watched, init);
      GateAdds(watched, init, [l]);
      GateOne(watched, l);
      assert logs == init + [l] && watched + {} == watched;
      OneRegistered(l);
      assert watched + Registered([l]) == watched;
    }
  }

  lemma TreeLogsPlain(g: Group, watched: set<Address>)
    requires WellFormed(g)
    ensures var logs := TreeLogs(g) + AnchorLogs(g); forall i :: 0 <= i < |logs| ==> Plain(logs[i], watched)
  {
    if g.SpendGroup? {
      AppendsPublishNothing(g.h, g.start, g.ocs, g.roots, |g.ocs|);
      AppendsFromPool(g.h, g.start, g.ocs, g.roots, |g.ocs|);
    }
  }

  lemma {:induction false} AppendsFromPool(h: Head, start: nat, ocs: seq<Felt>, roots: seq<Felt>, n: nat)
    requires n <= |ocs| == |roots|
    ensures forall i :: 0 <= i < |AppendLogs(h, start, ocs, roots, n)| ==>
              AppendLogs(h, start, ocs, roots, n)[i].address == POOL
  {
    if n > 0 {
      AppendsFromPool(h, start, ocs, roots, n - 1);
    }
  }

  /** The emitter of the op's own event. */
  function EmitterOf(g: Group): Address
    requires WellFormed(g)
  {
    MainLog(g).address
  }

  /** An op whose emitter is watched gets in whole; one whose emitter is not loses its own event and
      keeps only what the pool emitted for it. */
  lemma GroupAtGate(watched: set<Address>, g: Group)
    requires WellFormed(g) && (AnchorOf(g).Some? || g.AcceptGroup? ==> g.emitter != POOL)
    ensures Gate(watched, LogsOf(g))
         == if EmitterOf(g) == POOL || EmitterOf(g) in watched then LogsOf(g) else TreeLogs(g) + AnchorLogs(g)
    ensures Registered(LogsOf(g)) == Adds(g)
  {
    hide TreeLogs, AnchorLogs, Gate, Registered;
    var a, b, c := TreeLogs(g) + AnchorLogs(g), [MainLog(g)], TailLogs(g);
    TreeLogsPlain(g, watched);
    PlainGetsIn(watched, a);
    assert watched + {} == watched;
    MainAtGate(watched, g);
    TailAtGate(watched + Adds(g), g);
    GateAdds(watched, a, b);
    GateAdds(watched, a + b, c);
    RegisteredAdds(a, b);
    RegisteredAdds(a + b, c);
    assert LogsOf(g) == a + b + c;
    assert Registered(a + b) == Adds(g);
    assert Adds(g) + {} == Adds(g);
  }

  lemma MainAtGate(watched: set<Address>, g: Group)
    requires WellFormed(g) && (AnchorOf(g).Some? || g.AcceptGroup? ==> g.emitter != POOL)
    ensures Gate(watched, [MainLog(g)]) == if EmitterOf(g) == POOL || EmitterOf(g) in watched then [MainLog(g)] else []
    ensures Registered([MainLog(g)]) == Adds(g)
  {
    hide TreeLogs, AnchorLogs, Gate, Registered;
    GateOne(watched, MainLog(g));
    OneRegistered(MainLog(g));
  }

  lemma TailAtGate(watched: set<Address>, g: Group)
    requires WellFormed(g) && (AnchorOf(g).Some? || g.AcceptGroup? ==> g.emitter != POOL)
    ensures Gate(watched, TailLogs(g)) == if EmitterOf(g) == POOL || EmitterOf(g) in watched then TailLogs(g) else []
    ensures Registered(TailLogs(g)) == {}
  {
    hide TreeLogs, AnchorLogs, Gate, Registered;
    if TailOf(g).Some? {
      GateOne(watched, TailLogs(g)[0]);
      OneRegistered(TailLogs(g)[0]);
    } else {
      PlainGetsIn(watched, []);
    }
  }

  // ---- the whole chain ---------------------------------------------------------------

  ghost predicate AllEntitled(gs: seq<Group>)
    requires AllWellFormed(gs)
  {
    forall i {:trigger Clean(gs, i)} :: 0 <= i < |gs| ==> Entitled(Clean(gs, i), gs[i])
  }

  lemma SameStores(gs: seq<Group>, i: nat)
    requires AllWellFormed(gs) && i < |gs|
    ensures var m, m1 := Clean(gs, i), Inserted(Clean(gs, i), gs[i]); m1.modules == m.modules && m1.kem == m.kem
  {
  }

  lemma StillEntitled(m: Mem, m1: Mem, g: Group, watched: set<Address>)
    requires WellFormed(g) && m1.modules == m.modules && m1.kem == m.kem
    ensures Entitled(m, g) ==> Entitled(m1, g)
    ensures Covers(watched, m) ==> Covers(watched, m1)
    ensures OwnersKnown(m) ==> OwnersKnown(m1)
  {
  }

  lemma {:induction false} CleanOwnersKnown(gs: seq<Group>, n: nat)
    requires AllWellFormed(gs) && n <= |gs| && AllEntitled(gs)
    ensures OwnersKnown(Clean(gs, n))
  {
    hide GroupEffect, WellFormed, Inserted, Entitled, Covers, OwnersKnown, Watched;
    if n == 0 {
      NobodyOwnsYet();
    } else {
      CleanOwnersKnown(gs, n - 1);
      var m, g := Clean(gs, n - 1), gs[n - 1];
      SameStores(gs, n - 1);
      WatchedCovers(m);
      StillEntitled(m, Inserted(m, g), g, Watched(m));
      assert Entitled(Clean(gs, n - 1), gs[n - 1]);
      StillCovers(Watched(m), Inserted(m, g), g);
    }
  }

  lemma NobodyOwnsYet()
    ensures OwnersKnown(Ingest.EMPTY)
  {
  }

  lemma EntitledIsWatched(watched: set<Address>, m: Mem, g: Group)
    requires WellFormed(g) && Covers(watched, m) && Entitled(m, g)
    ensures EmitterOf(g) == POOL || EmitterOf(g) in watched
    ensures AnchorOf(g).Some? || g.AcceptGroup? ==> g.emitter != POOL
  {
  }

  /** From any watch-set that covers who may emit at the start of the range, every log of an entitled
      emitter gets in, whatever the range registers or removes. */
  lemma {:induction false} CoveredGetIn(gs: seq<Group>, w: set<Address>, c: nat, n: nat)
    requires AllWellFormed(gs) && c <= n <= |gs| && AllEntitled(gs)
    requires Covers(w, Clean(gs, c))
    ensures Gate(w, Range(gs, c, n)) == Range(gs, c, n)
    ensures Covers(w + Registered(Range(gs, c, n)), Clean(gs, n))
    decreases n
  {
    hide GroupEffect, WellFormed, Inserted, Entitled, Covers, OwnersKnown, Watched, Gate, Registered, LogsOf, Flatten;
    if c == n {
      EmptyRange(gs, c);
      PlainGetsIn(w, []);
      assert w + {} == w;
    } else {
      CoveredGetIn(gs, w, c, n - 1);
      CleanOwnersKnown(gs, n - 1);
      var m, g, a := Clean(gs, n - 1), gs[n - 1], Range(gs, c, n - 1);
      var w' := w + Registered(a);
      OneMoreGroup(gs, c, n);
      assert Entitled(Clean(gs, n - 1), gs[n - 1]);
      EntitledIsWatched(w', m, g);
      GroupAtGate(w', g);
      GateAdds(w, a, LogsOf(g));
      RegisteredAdds(a, LogsOf(g));
      assert w + Registered(a + LogsOf(g)) == w' + Adds(g);
      SameStores(gs, n - 1);
      StillEntitled(m, Inserted(m, g), g, w');
      StillCovers(w', Inserted(m, g), g);
    }
  }

  /** Watch-set completeness. On a pass from the state of the cursor, every log of an entitled emitter
      is inside the two-phase filter and past the gate, whatever the range registers or removes. */
  lemma EverybodyEntitledGetsIn(gs: seq<Group>, c: nat, n: nat)
    requires AllWellFormed(gs) && c <= n <= |gs| && AllEntitled(gs)
    ensures var w := Watched(Clean(gs, c));
            && Gate(w, Range(gs, c, n)) == Range(gs, c, n)
            && Covers(w + Registered(Range(gs, c, n)), Clean(gs, n))
  {
    hide WellFormed, Clean, Entitled, Covers, OwnersKnown, Watched, Gate, Registered, Range;
    CleanOwnersKnown(gs, c);
    WatchedCovers(Clean(gs, c));
    CoveredGetIn(gs, Watched(Clean(gs, c)), c, n);
  }

  /** What the base scan brings back. */
  function PoolLogs(raw: seq<Log>): seq<Log> {
    if raw == [] then []
    else
      var l := raw[|raw| - 1];
      PoolLogs(raw[..|raw| - 1]) + if l.address == POOL then [l] else []
  }

  lemma {:induction false} PoolRegisters(raw: seq<Log>)
    ensures Registered(PoolLogs(raw)) == Registered(raw)
  {
    if raw != [] {
      var init, l := raw[..|raw| - 1], raw[|raw| - 1];
      PoolRegisters(init);
      OneRegistered(l);
      if l.address == POOL {
        RegisteredAdds(PoolLogs(init), [l]);
      } else {
        assert PoolLogs(raw) == PoolLogs(init);
      }
    }
  }

  /** What the gate keeps lies inside the filter of the second scan, built from the first one's logs. */
  lemma KeptIsScanned(m: Mem, raw: seq<Log>, l: Log)
    requires l in Gate(Watched(m), raw)
    ensures l.address in ScanFilter(m, PoolLogs(raw))
  {
    hide MayEnter, Gate, Registered, Watched, PoolLogs;
    GateIsSound(Watched(m), raw, l);
    PoolRegisters(raw);
    var i :| 0 <= i < |raw| && raw[i] == l && Admitted(l, Watched(m) + Registered(raw[..i + 1]));
    RegisteredAdds(raw[..i + 1], raw[i + 1..]);
    assert raw == raw[..i + 1] + raw[i + 1..];
    var w := Watched(m) + Registered(raw[..i + 1]);
    assert Admitted(l, w);
  }
}
