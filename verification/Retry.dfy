/** What a handler that throws leaves behind for its retry, and exactly when the retry still lands. */
module Retry {
  import opened Field
  import opened Merkle
  import opened Imt
  import opened Chain
  import opened Ingest
  import opened Correlation
  import opened Effects
  import opened Recording
  import F = Feed
  import K = Kem
  import L = Ledger

  // ---- a ledger that throws behind the first-sight gate ------------------------------

  lemma BookThrowsIff(m: Mem, op: L.OpEnvelope)
    requires L.WellShaped(op) && op.key !in m.ledger.applied
    ensures Book(m, op).1 <==> (ARBITER ==> !op.envelope.NoKemKey?)
    ensures !Book(m, op).1 ==> Book(m, op).0 == m.(ledger := L.TakeKey(m.ledger, op.key))
    ensures ARBITER && Book(m, op).1 ==>
              && L.DeriveOp(op).Some?
              && Book(m, op).0.ledger == L.Record(L.TakeKey(m.ledger, op.key), L.DeriveOp(op).value, op)
  {
    hide L.Record;
  }

  /** The feed takes the log's key before the ledger can throw over a missing key, and so does the
      ledger. When it threw, a retry with the key configured is a replay to both: the op is in the feed
      and in the applied set, and its notes, spends and history are never booked. When it did not, they
      are booked, all of them. */
  lemma UnbookedForGood(m: Mem, g: Group, good: L.Envelope)
    requires K.Valid(m.kem) && WellFormed(g) && g.SpendGroup? && !Consumer(g.kind) && ARBITER
    requires WellFormed(g.(envelope := good)) && !good.NoKemKey?
    requires GroupKey(g) !in m.feed.seen && GroupKey(g) !in m.ledger.applied
    ensures var (m1, ok) := GroupEffect(m, g);
            && (ok <==> !g.envelope.NoKemKey?)
            && (!ok ==>
                  && GroupEffect(m1, g.(envelope := good)) == (m1, true)
                  && m1.ledger == L.TakeKey(m.ledger, GroupKey(g)))
            && (ok ==>
                  var op := SpentOp(MainLog(g), PairsOf(g));
                  && L.WellShaped(op) && L.DeriveOp(op).Some?
                  && m1.ledger == L.Record(L.TakeKey(m.ledger, GroupKey(g)), L.DeriveOp(op).value, op))
  {
    hide RecordPairs, Book, L.WellShaped, PairsOf, F.AddNullifiers, Announce, L.Record, L.DeriveOp;
    var l, pairs := MainLog(g), PairsOf(g);
    var d := SpentDraft(l, pairs);
    var fed := m.(tree := RecordPairs(m.tree, pairs), feed := F.AddNullifiers(F.AddEvent(m.feed, d).0, g.nfs));
    SpentShaped(g);
    SpentKey(l, pairs);
    BookThrowsIff(fed, SpentOp(l, pairs));
    AnnounceKeepsLedger(m, g);
    if !GroupEffect(m, g).1 {
      FedIsDone(m, g, good);
      DoneIsIdle(GroupEffect(m, g).0, g.(envelope := good));
    }
  }

  lemma AnnounceKeepsLedger(m: Mem, g: Group)
    requires K.Valid(m.kem) && WellFormed(g) && g.SpendGroup?
    ensures GroupEffect(m, g).0.ledger == Spend(m, MainLog(g), PairsOf(g)).0.ledger
  {
    hide Spend, PairsOf;
  }

  lemma FedIsDone(m: Mem, g: Group, good: L.Envelope)
    requires K.Valid(m.kem) && WellFormed(g) && g.SpendGroup? && WellFormed(g.(envelope := good))
    ensures Done(GroupEffect(m, g).0, g.(envelope := good))
  {
    hide GroupEffect;
    SpendShape(m, g);
    OwnLeavesIn(m.tree, g);
    SameKey(g, good);
  }

  lemma SameKey(g: Group, good: L.Envelope)
    requires WellFormed(g) && g.SpendGroup? && WellFormed(g.(envelope := good))
    ensures GroupKey(g.(envelope := good)) == GroupKey(g)
  {
  }

  // ---- a withdrawal whose ledger half throws -----------------------------------------

  /** The withdrawal's entry as the feed takes it, and what its announcement makes of it. */
  lemma WithdrawalEntry(m: Mem, g: Group)
    requires K.Valid(m.kem) && WellFormed(g) && g.SpendGroup? && Withdrawal(g.kind) && g.announcement.Some?
    requires GroupKey(g) !in m.feed.seen
    ensures var (cut, ok) := MainEffect(m, g);
            && |cut.feed.feed| == |m.feed.feed| + 1 && cut.feed.feed[|m.feed.feed|].announcement == None
            && GroupEffect(m, g) == (if ok then Announce(cut, [|m.feed.feed|], g.announcement.value) else cut, ok)
  {
    hide RecordPairs, Book, L.WellShaped, PairsOf, SpentOp, L.Apply, Announce;
    var l, pairs := MainLog(g), PairsOf(g);
    var d := SpentDraft(l, pairs);
    var recorded := m.(tree := RecordPairs(m.tree, pairs));
    var feed := F.AddEvent(m.feed, d).0;
    SpentKey(l, pairs);
    NullifiersOnly(feed, g.nfs);
    if !Consumer(g.kind) {
      SpentShaped(g);
      BookShape(recorded.(feed := F.AddNullifiers(feed, g.nfs)), SpentOp(l, pairs));
    }
  }

  /** The pool withdrawal whose ledger half throws leaves its entry in the feed with the log's key taken
      and nothing queued for the announcement that follows. Every retry, with a key configured or not,
      is a replay, and the announcement finds nobody waiting. The entry carries what was announced
      exactly when the first attempt did not throw or the announcement was no stealth one. */
  lemma ThrownWithdrawalStaysBareIff(m: Mem, g: Group, good: L.Envelope)
    requires K.Valid(m.kem) && WellFormed(g) && g.SpendGroup? && g.kind == F.WithdrawEvent && g.announcement.Some?
    requires GroupKey(g) !in m.feed.seen && GroupKey(g) !in m.ledger.applied && WellFormed(g.(envelope := good))
    ensures var (m1, ok) := GroupEffect(m, g); var announced := g.announcement.value;
            && (ok <==> (ARBITER ==> !g.envelope.NoKemKey?))
            && GroupEffect(m1, g.(envelope := good)) == (m1, true)
            && |m1.feed.feed| == |m.feed.feed| + 1
            && (m1.feed.feed[|m.feed.feed|].announcement
                == (if announced.stealth then Some(announced.announcement) else None)
                <==> ok || !announced.stealth)
  {
    hide RecordPairs, Book, L.WellShaped, PairsOf, F.AddNullifiers, L.Record, L.DeriveOp;
    var l, pairs := MainLog(g), PairsOf(g);
    var d := SpentDraft(l, pairs);
    var fed := m.(tree := RecordPairs(m.tree, pairs), feed := F.AddNullifiers(F.AddEvent(m.feed, d).0, g.nfs));
    SpentShaped(g);
    SpentKey(l, pairs);
    BookThrowsIff(fed, SpentOp(l, pairs));
    WithdrawalEntry(m, g);
    FedIsDone(m, g, good);
    DoneIsIdle(GroupEffect(m, g).0, g.(envelope := good));
  }
}
