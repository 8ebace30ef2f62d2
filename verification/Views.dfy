/** The read model without its buffers, its in-memory cursors and the replay keys a reboot forgets:
    what the routes serve, and what two runs must agree on. */
module Views {
  import opened Field
  import opened Chain
  import opened Ingest
  import opened Correlation
  import opened Effects
  import F = Feed
  import FL = LedgerTables
  import K = Kem
  import KT = KemTables
  import L = Ledger
  import M = Mirror
  import R = Registry
  import D = Disclosure

  function LeafView(t: M.State): M.State {
    M.State([], t.leaves, map[], t.filled, t.publicFilled, [])
  }

  function FeedView(s: F.State): F.State {
    F.Core(s).(lastBlock := 0)
  }

  /** Everything but the frontier, which pass 1 drives ahead of the rest. */
  function View(m: Mem): Mem {
    Mem(LeafView(m.tree), FeedView(m.feed), FL.Core(m.ledger), R.Core(m.modules), KT.Core(m.kem))
  }

  // ---- each store's steps depend on its view only ------------------------------------

  lemma {:induction false} PairsRespectView(a: M.State, b: M.State, pairs: seq<Pair>)
    requires LeafView(a) == LeafView(b)
    ensures LeafView(RecordPairs(a, pairs)) == LeafView(RecordPairs(b, pairs))
    decreases |pairs|
  {
    if pairs != [] {
      PairsRespectView(M.RecordLeaf(a, pairs[0].leafIndex, pairs[0].leaf),
                       M.RecordLeaf(b, pairs[0].leafIndex, pairs[0].leaf), pairs[1..]);
    }
  }

  lemma {:induction false} NullifiersRespectView(a: F.State, b: F.State, nfs: seq<Felt>)
    requires FeedView(a) == FeedView(b)
    ensures FeedView(F.AddNullifiers(a, nfs)) == FeedView(F.AddNullifiers(b, nfs))
  {
    if nfs != [] {
      NullifiersRespectView(a, b, nfs[..|nfs| - 1]);
    }
  }

  lemma AddRespectsView(a: F.State, b: F.State, d: F.Draft)
    requires FeedView(a) == FeedView(b)
    ensures FeedView(F.AddEvent(a, d).0) == FeedView(F.AddEvent(b, d).0) && F.AddEvent(a, d).1 == F.AddEvent(b, d).1
  {
  }

  lemma {:induction false} NotesRespectView(a: L.State, b: L.State, outputs: seq<L.DerivedNote>, tx: nat)
    requires FL.Core(a) == FL.Core(b)
    ensures FL.Core(L.RecordNotes(a, outputs, tx)) == FL.Core(L.RecordNotes(b, outputs, tx))
  {
    if outputs != [] {
      NotesRespectView(a, b, outputs[..|outputs| - 1], tx);
    }
  }

  lemma {:induction false} MarksRespectView(a: L.State, b: L.State, cs: seq<Felt>)
    requires FL.Core(a) == FL.Core(b)
    ensures FL.Core(L.MarkAllSpent(a, cs)) == FL.Core(L.MarkAllSpent(b, cs))
  {
    if cs != [] {
      MarksRespectView(a, b, cs[..|cs| - 1]);
    }
  }

  lemma {:induction false} DraftsRespectView(a: L.State, b: L.State, drafts: seq<L.Draft>, op: L.OpEnvelope)
    requires FL.Core(a) == FL.Core(b)
    ensures FL.Core(L.RecordDrafts(a, drafts, op)) == FL.Core(L.RecordDrafts(b, drafts, op))
  {
    if drafts != [] {
      DraftsRespectView(a, b, drafts[..|drafts| - 1], op);
    }
  }

  lemma LedgerRespectsView(a: L.State, b: L.State, op: L.OpEnvelope)
    requires FL.Core(a) == FL.Core(b) && L.WellShaped(op)
    ensures FL.Core(L.Apply(a, op).0) == FL.Core(L.Apply(b, op).0)
    ensures L.Apply(a, op).1 == L.Apply(b, op).1 && L.Apply(a, op).2 == L.Apply(b, op).2
  {
    hide L.DeriveOp, L.RecordNotes, L.MarkAllSpent, L.RecordDrafts;
    if op.key !in a.applied && L.DeriveOp(op).Some? {
      var d := L.DeriveOp(op).value;
      var a0, b0 := L.TakeKey(a, op.key), L.TakeKey(b, op.key);
      NotesRespectView(a0, b0, d.outputs, op.key.txHash);
      var a1 := L.RecordAlarms(L.RecordNotes(a0, d.outputs, op.key.txHash), d.alarms);
      var b1 := L.RecordAlarms(L.RecordNotes(b0, d.outputs, op.key.txHash), d.alarms);
      MarksRespectView(a1, b1, d.spent);
      DraftsRespectView(L.MarkAllSpent(a1, d.spent), L.MarkAllSpent(b1, d.spent), d.history, op);
    }
  }

  lemma BookRespectsView(a: Mem, b: Mem, op: L.OpEnvelope)
    requires View(a) == View(b) && L.WellShaped(op)
    ensures View(Book(a, op).0) == View(Book(b, op).0) && Book(a, op).1 == Book(b, op).1
  {
    hide L.Apply, L.DeriveOp;
    LedgerRespectsView(a.ledger, b.ledger, op);
  }

  /** The key is not one a registry or kem replay would recognise. */
  ghost predicate Fresh(m: Mem, g: Group)
    requires WellFormed(g)
  {
    GroupKey(g) !in m.modules.seen && GroupKey(g) !in m.kem.seen
  }

  /** Two read models that agree still agree after one more group. */
  lemma EffectRespectsView(a: Mem, b: Mem, g: Group)
    requires K.Valid(a.kem) && K.Valid(b.kem) && WellFormed(g)
    requires View(a) == View(b) && Fresh(a, g) && Fresh(b, g)
    ensures View(GroupEffect(a, g).0) == View(GroupEffect(b, g).0) && GroupEffect(a, g).1 == GroupEffect(b, g).1
  {
    hide View, GroupEffect;
    match g {
      case SpendGroup(_, _, _, _, _, _, _, _, _, _) => SpendRespectsView(a, b, g);
      case BatchGroup(_, _, _, _, _, _) => BatchRespectsView(a, b, g);
      case PrivGroup(_, _, _, _, _, _, _, _) => PrivRespectsView(a, b, g);
      case _ => StreamRespectsView(a, b, g);
    }
  }

  lemma SpendRespectsView(a: Mem, b: Mem, g: Group)
    requires K.Valid(a.kem) && K.Valid(b.kem) && WellFormed(g) && g.SpendGroup? && View(a) == View(b)
    ensures View(GroupEffect(a, g).0) == View(GroupEffect(b, g).0) && GroupEffect(a, g).1 == GroupEffect(b, g).1
  {
    hide Book, L.WellShaped, SpentDraft, SpentOp, F.AddEvent, F.AddNullifiers, RecordPairs;
    var l, pairs := MainLog(g), PairsOf(g);
    var d := SpentDraft(l, pairs);
    PairsRespectView(a.tree, b.tree, pairs);
    AddRespectsView(a.feed, b.feed, d);
    var fa, fb := F.AddEvent(a.feed, d).0, F.AddEvent(b.feed, d).0;
    NullifiersRespectView(fa, fb, l.ev.nfs);
    if !Consumer(l.ev.kind) {
      SpentShaped(g);
      BookRespectsView(a.(tree := RecordPairs(a.tree, pairs), feed := F.AddNullifiers(fa, l.ev.nfs)),
                       b.(tree := RecordPairs(b.tree, pairs), feed := F.AddNullifiers(fb, l.ev.nfs)),
                         SpentOp(l, pairs));
    }
    AnnounceRespectsView(Spend(a, l, pairs).0, Spend(b, l, pairs).0, g, F.AddEvent(a.feed, d).1);
  }

  lemma AnnounceRespectsView(a: Mem, b: Mem, g: Group, at: Option<nat>)
    requires WellFormed(g) && g.SpendGroup? && View(a) == View(b)
    ensures at.Some? && g.announcement.Some? ==>
              View(Announce(a, [at.value], g.announcement.value)) == View(Announce(b, [at.value], g.announcement.value))
  {
  }

  lemma BatchRespectsView(a: Mem, b: Mem, g: Group)
    requires K.Valid(a.kem) && K.Valid(b.kem) && WellFormed(g) && g.BatchGroup? && View(a) == View(b)
    ensures View(GroupEffect(a, g).0) == View(GroupEffect(b, g).0) && GroupEffect(a, g).1 == GroupEffect(b, g).1
  {
    hide Book, L.WellShaped, F.AddEvent, F.AddNullifiers, D.VerifyDisclosure, Consecutive, BatchOp;
    var l := MainLog(g);
    var cts := if g.published.Some? then g.published.value.elements else [];
    var disclosure := D.VerifyDisclosure(cts, l.ev.disclosureHash, l.txHash, g.s.start);
    var slices := if cts == [] then [] else Consecutive(g.s.start, B);
    var d := F.Draft(KeyOf(l), l.blockNumber, F.DisburseEvent, slices, Some(disclosure), None, None, l.ev.payload);
    AddRespectsView(a.feed, b.feed, d);
    var fa, fb := F.AddEvent(a.feed, d).0, F.AddEvent(b.feed, d).0;
    NullifiersRespectView(fa, fb, [g.nullifier]);
    if g.published.Some? {
      BatchShaped(g);
      BookRespectsView(a.(feed := F.AddNullifiers(fa, [g.nullifier])), b.(feed := F.AddNullifiers(fb, [g.nullifier])),
                       BatchOp(l, g.s, g.published.value.envelope));
    }
  }

  lemma BatchShaped(g: Group)
    requires WellFormed(g) && g.BatchGroup? && g.published.Some?
    ensures L.WellShaped(BatchOp(MainLog(g), g.s, g.published.value.envelope))
  {
  }

  lemma PrivRespectsView(a: Mem, b: Mem, g: Group)
    requires K.Valid(a.kem) && K.Valid(b.kem) && WellFormed(g) && g.PrivGroup? && View(a) == View(b)
    requires Fresh(a, g) && Fresh(b, g)
    ensures View(GroupEffect(a, g).0) == View(GroupEffect(b, g).0) && GroupEffect(a, g).1 == GroupEffect(b, g).1
  {
    hide F.AddEvent, F.AddNullifiers, D.VerifyConsumerDisclosure, PrivDraft, M.Overlay, K.Fresh;
    var l := MainLog(g);
    var d := PrivDraft(l, g.s, Elements(g.published));
    AddRespectsView(a.feed, b.feed, d);
    NullifiersRespectView(F.AddEvent(a.feed, d).0, F.AddEvent(b.feed, d).0, [g.nullifier]);
  }

  lemma StreamRespectsView(a: Mem, b: Mem, g: Group)
    requires K.Valid(a.kem) && K.Valid(b.kem) && WellFormed(g) && (g.RegistryGroup? || g.AcceptGroup?)
    requires View(a) == View(b) && Fresh(a, g) && Fresh(b, g)
    ensures View(GroupEffect(a, g).0) == View(GroupEffect(b, g).0) && GroupEffect(a, g).1 == GroupEffect(b, g).1
  {
  }
}
