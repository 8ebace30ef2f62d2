/** The law behind the arbiter's two views of an owner: the activity feed nets to the unspent notes. */
module Conservation {
  import opened Field
  import opened Merkle
  import opened History
  import opened Ledger

  function Signed(kind: Kind, amount: int): int {
    match kind
    case Received => amount
    case Deposit => amount
    case Sent => -amount
    case Withdraw => -amount
  }

  /** An owner's signed activity-feed total. */
  function FeedTotal(feed: seq<Entry>, owner: Owner): int {
    if feed == [] then 0
    else
      var e := feed[|feed| - 1];
      FeedTotal(feed[..|feed| - 1], owner) + if e.owner == owner then Signed(e.item.kind, e.item.amount) else 0
  }

  /** The sum of an owner's unspent notes. */
  function Balance(notes: seq<LedgerNote>, owner: Owner): int {
    if notes == [] then 0
    else
      var n := notes[|notes| - 1];
      Balance(notes[..|notes| - 1], owner) + Holds(n, owner)
  }

  function Holds(n: LedgerNote, owner: Owner): nat {
    if n.note.owner == owner && !n.spent then n.note.value else 0
  }

  function DraftTotal(drafts: seq<Draft>, owner: Owner): int {
    if drafts == [] then 0
    else
      var d := drafts[|drafts| - 1];
      DraftTotal(drafts[..|drafts| - 1], owner) + if d.owner == owner then Signed(d.kind, d.amount) else 0
  }

  function DerivedSum(outputs: seq<DerivedNote>, owner: Owner): nat {
    if outputs == [] then 0
    else
      var o := outputs[|outputs| - 1];
      DerivedSum(outputs[..|outputs| - 1], owner) + if o.note.owner == owner then o.note.value else 0
  }

  // ---- the books ---------------------------------------------------------------------

  /** byCommitment names notes by their own commitment. */
  ghost predicate Indexed(s: State) {
    forall c :: c in s.byCommitment ==> s.byCommitment[c] < |s.notes| && s.notes[s.byCommitment[c]].commitment == c
  }

  lemma BalanceAfterAppend(notes: seq<LedgerNote>, n: LedgerNote, owner: Owner)
    ensures Balance(notes + [n], owner) == Balance(notes, owner) + Holds(n, owner)
  {
    assert (notes + [n])[..|notes|] == notes;
  }

  lemma {:induction false} BalanceAfterUpdate(notes: seq<LedgerNote>, k: nat, n: LedgerNote, owner: Owner)
    requires k < |notes|
    ensures Balance(notes[k := n], owner) == Balance(notes, owner) - Holds(notes[k], owner) + Holds(n, owner)
  {
    var last := |notes| - 1;
    if k == last {
      assert notes[k := n][..last] == notes[..last];
    } else {
      BalanceAfterUpdate(notes[..last], k, n, owner);
      assert notes[k := n][..last] == notes[..last][k := n];
    }
  }

  lemma {:induction false} RecordKeepsFrame(s: State, outputs: seq<DerivedNote>, txHash: nat)
    requires Indexed(s)
    ensures var s' := RecordNotes(s, outputs, txHash);
            && Indexed(s') && s.notes <= s'.notes
            && s'.feed == s.feed && s'.historySeq == s.historySeq
  {
    if outputs != [] {
      RecordKeepsFrame(s, outputs[..|outputs| - 1], txHash);
    }
  }

  lemma {:induction false} RecordBalance(s: State, outputs: seq<DerivedNote>, txHash: nat, owner: Owner)
    ensures Balance(RecordNotes(s, outputs, txHash).notes, owner)
              == Balance(s.notes, owner) + DerivedSum(outputs, owner)
  {
    if outputs != [] {
      var n := |outputs| - 1;
      RecordBalance(s, outputs[..n], txHash, owner);
      var o := outputs[n];
      BalanceAfterAppend(RecordNotes(s, outputs[..n], txHash).notes,
                         LedgerNote(o.note, o.leafIndex, o.commitment, txHash, false), owner);
    }
  }

  lemma {:induction false} RecordKeepsIndex(s: State, outputs: seq<DerivedNote>, txHash: nat, c: Felt)
    requires forall i :: 0 <= i < |outputs| ==> outputs[i].commitment != c
    ensures var s' := RecordNotes(s, outputs, txHash);
            && (c in s'.byCommitment <==> c in s.byCommitment)
            && (c in s.byCommitment ==> s'.byCommitment[c] == s.byCommitment[c])
  {
    if outputs != [] {
      RecordKeepsIndex(s, outputs[..|outputs| - 1], txHash, c);
    }
  }

  /** Each input is a recorded, unspent note of the sender, or a valueless pad the ledger never saw. */
  ghost predicate InputOk(s: State, n: Note) {
    var c := NoteCommitment(n);
    if c in s.byCommitment && s.byCommitment[c] < |s.notes| then
      var known := s.notes[s.byCommitment[c]];
      known.note.owner == n.owner && known.note.value == n.value && (n.value == 0 || !known.spent)
    else n.value == 0
  }

  ghost predicate InputsOk(s: State, inputs: seq<Note>) {
    && (forall i :: 0 <= i < |inputs| ==> InputOk(s, inputs[i]))
    && (forall i, j :: 0 <= i < j < |inputs| && NoteCommitment(inputs[i]) == NoteCommitment(inputs[j]) ==>
        inputs[j].value == 0)
  }

  lemma {:induction false} MarkKeepsFrame(s: State, cs: seq<Felt>)
    requires Indexed(s)
    ensures var s' := MarkAllSpent(s, cs);
            && Indexed(s') && |s'.notes| == |s.notes| && s'.byCommitment == s.byCommitment
            && s'.feed == s.feed && s'.historySeq == s.historySeq
  {
    if cs != [] {
      MarkKeepsFrame(s, cs[..|cs| - 1]);
    }
  }

  /** A note no mark names keeps its flag. */
  lemma {:induction false} MarkMissesNote(s: State, cs: seq<Felt>, k: nat)
    requires Indexed(s) && k < |s.notes| && forall i :: 0 <= i < |cs| ==> cs[i] != s.notes[k].commitment
    ensures |MarkAllSpent(s, cs).notes| == |s.notes| && MarkAllSpent(s, cs).notes[k] == s.notes[k]
  {
    MarkKeepsFrame(s, cs);
    if cs != [] {
      MarkKeepsFrame(s, cs[..|cs| - 1]);
      MarkMissesNote(s, cs[..|cs| - 1], k);
    }
  }

  /** A mark changes a note's flag and nothing else. */
  lemma {:induction false} MarkKeepsNotes(s: State, cs: seq<Felt>, k: nat)
    requires k < |s.notes|
    ensures |MarkAllSpent(s, cs).notes| == |s.notes|
    ensures var n := MarkAllSpent(s, cs).notes[k]; n == s.notes[k].(spent := n.spent)
    ensures s.notes[k].spent ==> MarkAllSpent(s, cs).notes[k].spent
  {
    if cs != [] {
      MarkKeepsNotes(s, cs[..|cs| - 1], k);
    }
  }

  lemma {:induction false} MarkBalance(s: State, inputs: seq<Note>, owner: Owner)
    requires Indexed(s) && InputsOk(s, inputs)
    ensures Balance(MarkAllSpent(s, Commitments(inputs)).notes, owner) == Balance(s.notes, owner) - SumOf(inputs, owner)
  {
    if inputs != [] {
      var n := |inputs| - 1;
      var init, c := inputs[..n], NoteCommitment(inputs[n]);
      var mid := MarkAllSpent(s, Commitments(init));
      MarkBalance(s, init, owner);
      MarkKeepsFrame(s, Commitments(init));
      assert Commitments(inputs)[..n] == Commitments(init);
      assert InputOk(s, inputs[n]);
      if c in s.byCommitment {
        var k := s.byCommitment[c];
        BalanceAfterUpdate(mid.notes, k, mid.notes[k].(spent := true), owner);
        MarkKeepsNotes(s, Commitments(init), k);
        if inputs[n].value != 0 {
          MarkMissesNote(s, Commitments(init), k);
        }
      }
    }
  }

  lemma {:induction false} DraftsExtendFeed(s: State, drafts: seq<Draft>, op: OpEnvelope, owner: Owner)
    ensures var s' := RecordDrafts(s, drafts, op);
            && s'.notes == s.notes && s'.byCommitment == s.byCommitment
            && FeedTotal(s'.feed, owner) == FeedTotal(s.feed, owner) + DraftTotal(drafts, owner)
  {
    if drafts != [] {
      var n := |drafts| - 1;
      DraftsExtendFeed(s, drafts[..n], op, owner);
      var mid := RecordDrafts(s, drafts[..n], op);
      var feed := RecordDrafts(s, drafts, op).feed;
      assert feed[..|feed| - 1] == mid.feed;
    }
  }

  // ---- what each kind of op adds to the feed -----------------------------------------

  lemma OneMoreDraft(drafts: seq<Draft>, d: Draft, owner: Owner)
    ensures DraftTotal(drafts + [d], owner)
         == DraftTotal(drafts, owner) + if d.owner == owner then Signed(d.kind, d.amount) else 0
    ensures drafts + [] == drafts
  {
    assert (drafts + [d])[..|drafts|] == drafts;
  }

  lemma {:induction false} DepositTotal(outputs: seq<Note>, owner: Owner)
    ensures DraftTotal(DepositDrafts(outputs), owner) == SumOf(outputs, owner)
  {
    if outputs != [] {
      var n := |outputs| - 1;
      DepositTotal(outputs[..n], owner);
      OneMoreDraft(DepositDrafts(outputs[..n]), Draft(outputs[n].owner, Deposit, None, outputs[n].value), owner);
    }
  }

  lemma {:induction false} ReceivedTotal(outputs: seq<Note>, sender: Owner, owner: Owner)
    ensures DraftTotal(ReceivedDrafts(outputs, sender), owner) == if owner == sender then 0 else SumOf(outputs, owner)
  {
    if outputs != [] {
      var n := |outputs| - 1;
      ReceivedTotal(outputs[..n], sender, owner);
      OneMoreDraft(ReceivedDrafts(outputs[..n], sender),
                   Draft(outputs[n].owner, Received, Some(sender), outputs[n].value), owner);
    }
  }

  /** The two items of one payment, or none. */
  lemma TransferOneMore(outputs: seq<Note>, sender: Owner, owner: Owner)
    requires outputs != []
    ensures var n := |outputs| - 1;
            var init := TransferDrafts(outputs[..n], sender);
            var a := Draft(outputs[n].owner, Received, Some(sender), outputs[n].value);
            var b := Draft(sender, Sent, Some(outputs[n].owner), outputs[n].value);
            && TransferDrafts(outputs, sender) == (if PaysOther(outputs[n], sender) then init + [a] + [b] else init)
            && Paid(outputs, sender)
               == Paid(outputs[..n], sender) + (if PaysOther(outputs[n], sender) then outputs[n].value else 0)
            && SumOf(outputs, owner)
               == SumOf(outputs[..n], owner) + (if outputs[n].owner == owner then outputs[n].value else 0)
  {
    var n := |outputs| - 1;
    var init := TransferDrafts(outputs[..n], sender);
    var a := Draft(outputs[n].owner, Received, Some(sender), outputs[n].value);
    var b := Draft(sender, Sent, Some(outputs[n].owner), outputs[n].value);
    assert init + [a, b] == init + [a] + [b] && init + [] == init;
  }

  lemma {:induction false} TransferTotal(outputs: seq<Note>, sender: Owner, owner: Owner)
    ensures owner == sender ==> DraftTotal(TransferDrafts(outputs, sender), owner) + Paid(outputs, sender) == 0
    ensures owner != sender ==> DraftTotal(TransferDrafts(outputs, sender), owner) == SumOf(outputs, owner)
  {
    hide DraftTotal, TransferDrafts, Paid, SumOf;
    if outputs == [] {
      NothingTransferred(sender, owner);
    } else {
      var n := |outputs| - 1;
      var init := TransferDrafts(outputs[..n], sender);
      var a := Draft(outputs[n].owner, Received, Some(sender), outputs[n].value);
      var b := Draft(sender, Sent, Some(outputs[n].owner), outputs[n].value);
      TransferTotal(outputs[..n], sender, owner);
      TransferOneMore(outputs, sender, owner);
      OneMoreDraft(init, a, owner);
      OneMoreDraft(init + [a], b, owner);
    }
  }

  lemma NothingTransferred(sender: Owner, owner: Owner)
    ensures DraftTotal(TransferDrafts([], sender), owner) == 0 && Paid([], sender) == 0 && SumOf([], owner) == 0
  {
  }

  lemma {:induction false} PaidPlusKept(outputs: seq<Note>, sender: Owner)
    ensures Paid(outputs, sender) + SumOf(outputs, sender) == Sum(outputs)
  {
    if outputs != [] {
      PaidPlusKept(outputs[..|outputs| - 1], sender);
    }
  }

  lemma {:induction false} OneOwnerSum(notes: seq<Note>, sender: Owner, owner: Owner)
    requires forall i :: 0 <= i < |notes| ==> notes[i].owner == sender
    ensures SumOf(notes, owner) == if owner == sender then Sum(notes) else 0
  {
    if notes != [] {
      OneOwnerSum(notes[..|notes| - 1], sender, owner);
    }
  }

  lemma {:induction false} NonzeroSum(notes: seq<Note>, owner: Owner)
    ensures SumOf(Nonzero(notes), owner) == SumOf(notes, owner)
  {
    if notes != [] {
      var n := |notes| - 1;
      NonzeroSum(notes[..n], owner);
      var init := Nonzero(notes[..n]);
      assert init + [] == init && (init + [notes[n]])[..|init|] == init;
    }
  }

  // ---- the law -----------------------------------------------------------------------

  /** What makes an op's amounts add up. A caller can check it on the opened envelope. */
  ghost predicate ValueConserving(op: OpEnvelope)
    requires WellShaped(op) && op.envelope.Notes?
  {
    var inputs, outputs := op.envelope.inputs, op.envelope.outputs;
    match op.kind
    case OpDeposit => true
    case OpWithdraw =>
      && Sum(outputs) <= Sum(inputs)
      && forall i :: 0 <= i < |outputs| && outputs[i].value != 0 ==> outputs[i].owner == inputs[0].owner
    case _ => Sum(inputs) == Sum(outputs)
  }

  /** What the op moves between owners, by its notes and by its feed items. */
  function NoteDelta(op: OpEnvelope, owner: Owner): int
    requires op.envelope.Notes?
  {
    SumOf(op.envelope.outputs, owner) - SumOf(op.envelope.inputs, owner)
  }

  function FeedDelta(op: OpEnvelope, owner: Owner): int
    requires WellShaped(op) && op.envelope.Notes?
  {
    DraftTotal(HistoryOfOp(op), owner)
  }

  lemma {:induction false} PaidIsZero(outputs: seq<Note>, sender: Owner)
    requires forall i :: 0 <= i < |outputs| ==> !PaysOther(outputs[i], sender)
    ensures Paid(outputs, sender) == 0
  {
    if outputs != [] {
      PaidIsZero(outputs[..|outputs| - 1], sender);
    }
  }

  lemma {:induction false} NonzeroHasIt(notes: seq<Note>, n: Note)
    requires n in notes && n.value != 0
    ensures n in Nonzero(notes)
  {
    if n != notes[|notes| - 1] {
      NonzeroHasIt(notes[..|notes| - 1], n);
    }
  }

  lemma {:induction false} SumOfAbsent(notes: seq<Note>, owner: Owner)
    requires forall i :: 0 <= i < |notes| && notes[i].value != 0 ==> notes[i].owner != owner
    ensures SumOf(notes, owner) == 0
  {
    if notes != [] {
      SumOfAbsent(notes[..|notes| - 1], owner);
    }
  }

  lemma PureSelfSendPaysNobody(outputs: seq<Note>, sender: Owner, owner: Owner)
    requires PureSelfSend(outputs, sender)
    ensures Paid(outputs, sender) == 0
    ensures owner != sender ==> SumOf(outputs, owner) == 0
  {
    forall i | 0 <= i < |outputs| && outputs[i].value != 0
      ensures outputs[i].owner == sender
    {
      NonzeroHasIt(outputs, outputs[i]);
    }
    PaidIsZero(outputs, sender);
    if owner != sender {
      SumOfAbsent(outputs, owner);
    }
  }

  /** Everyone but the sender: always even, except a withdraw whose change goes elsewhere. */
  lemma OthersAreEven(op: OpEnvelope, owner: Owner)
    requires WellShaped(op) && op.envelope.Notes?
    requires !op.kind.OpWithdraw? && (!op.kind.OpDeposit? ==> owner != op.envelope.inputs[0].owner)
    ensures FeedDelta(op, owner) == NoteDelta(op, owner)
  {
    hide DraftTotal, SumOf, Sum, Paid, TransferDrafts, ReceivedDrafts, DepositDrafts, Nonzero;
    var inputs, outputs := op.envelope.inputs, op.envelope.outputs;
    NothingTransferred(owner, owner);
    if op.kind.OpDeposit? {
      DepositTotal(outputs, owner);
    } else {
      var sender := inputs[0].owner;
      OneOwnerSum(inputs, sender, owner);
      ReceivedTotal(outputs, sender, owner);
      TransferTotal(outputs, sender, owner);
      OneMoreDraft(ReceivedDrafts(outputs, sender), Draft(sender, Sent, None, Paid(outputs, sender)), owner);
      if PureSelfSend(outputs, sender) {
        PureSelfSendPaysNobody(outputs, sender, owner);
        PairTotal(sender, Nonzero(outputs)[0].value, owner);
      }
    }
  }

  lemma PairTotal(sender: Owner, amount: nat, owner: Owner)
    ensures DraftTotal([Draft(sender, Sent, Some(sender), amount), Draft(sender, Received, Some(sender), amount)],
                       owner) == 0
  {
    var a := Draft(sender, Sent, Some(sender), amount);
    OneMoreDraft([], a, owner);
    OneMoreDraft([a], Draft(sender, Received, Some(sender), amount), owner);
    assert [] + [a] == [a];
  }

  /** The sender of a transfer or disburse comes out even exactly when inputs equal outputs. */
  lemma SenderIsEvenIff(op: OpEnvelope)
    requires WellShaped(op) && op.envelope.Notes? && !op.kind.OpWithdraw? && !op.kind.OpDeposit?
    ensures var sender := op.envelope.inputs[0].owner;
            FeedDelta(op, sender) == NoteDelta(op, sender) <==> Sum(op.envelope.inputs) == Sum(op.envelope.outputs)
  {
    hide DraftTotal, SumOf, Sum, Paid, TransferDrafts, ReceivedDrafts, DepositDrafts, Nonzero;
    var inputs, outputs := op.envelope.inputs, op.envelope.outputs;
    var sender := inputs[0].owner;
    OneOwnerSum(inputs, sender, sender);
    ReceivedTotal(outputs, sender, sender);
    TransferTotal(outputs, sender, sender);
    PaidPlusKept(outputs, sender);
    OneMoreDraft(ReceivedDrafts(outputs, sender), Draft(sender, Sent, None, Paid(outputs, sender)), sender);
    if PureSelfSend(outputs, sender) {
      PureSelfSendPaysNobody(outputs, sender, sender);
      PairTotal(sender, Nonzero(outputs)[0].value, sender);
    }
  }

  lemma WithdrawDeltas(op: OpEnvelope, owner: Owner)
    requires WellShaped(op) && op.envelope.Notes? && op.kind.OpWithdraw?
    ensures var inputs, change := op.envelope.inputs, op.envelope.outputs[0];
            var sender := inputs[0].owner;
            && Sum(op.envelope.outputs) == change.value
            && NoteDelta(op, owner)
                 == (if owner == change.owner then change.value else 0) - (if owner == sender then Sum(inputs) else 0)
            && FeedDelta(op, owner)
                 == if owner == sender && Sum(inputs) > change.value then change.value - Sum(inputs) else 0
  {
    var inputs, outputs := op.envelope.inputs, op.envelope.outputs;
    OneOwnerSum(inputs, inputs[0].owner, owner);
    assert outputs[..0] == [];
    if Sum(inputs) > Sum(outputs) {
      var d := Draft(inputs[0].owner, Withdraw, None, Sum(inputs) - Sum(outputs));
      OneMoreDraft([], d, owner);
      assert [] + [d] == [d];
    }
  }

  lemma WithdrawIsEvenIff(op: OpEnvelope)
    requires WellShaped(op) && op.envelope.Notes? && op.kind.OpWithdraw?
    ensures (forall owner :: FeedDelta(op, owner) == NoteDelta(op, owner)) <==> ValueConserving(op)
  {
    hide FeedDelta, NoteDelta, Sum;
    forall owner
      ensures FeedDelta(op, owner) == NoteDelta(op, owner) || !ValueConserving(op)
    {
      WithdrawDeltas(op, owner);
    }
    WithdrawDeltas(op, op.envelope.inputs[0].owner);
    WithdrawDeltas(op, op.envelope.outputs[0].owner);
  }

  /** An op keeps every owner's books even if and only if its amounts add up. */
  lemma EvenForAllIff(op: OpEnvelope)
    requires WellShaped(op) && op.envelope.Notes?
    ensures (forall owner :: FeedDelta(op, owner) == NoteDelta(op, owner)) <==> ValueConserving(op)
  {
    if op.kind.OpWithdraw? {
      WithdrawIsEvenIff(op);
    } else {
      forall owner | op.kind.OpDeposit? || owner != op.envelope.inputs[0].owner
        ensures FeedDelta(op, owner) == NoteDelta(op, owner)
      {
        OthersAreEven(op, owner);
      }
      if !op.kind.OpDeposit? {
        SenderIsEvenIff(op);
      }
    }
  }

  /** An op the ledger can book: first sight, opened, alarm-free, inputs known and unspent, outputs new. */
  ghost predicate Bookable(s: State, op: OpEnvelope) {
    && WellShaped(op) && op.envelope.Notes? && op.key !in s.applied
    && DeriveOp(op).value.alarms == []
    && InputsOk(s, op.envelope.inputs)
    && forall i, j :: 0 <= i < |op.envelope.inputs| && 0 <= j < |op.envelope.outputs| ==>
         NoteCommitment(op.envelope.inputs[i]) != NoteCommitment(op.envelope.outputs[j])
  }

  /** Without an alarm every known leaf is recorded, in order. */
  lemma {:induction false} NoAlarmNoLoss(op: OpEnvelope, outputs: seq<Note>, known: seq<LeafRef>)
    requires |known| <= |outputs| && CheckAlarms(op, outputs, known) == []
    ensures var notes := CheckedNotes(outputs, known);
            |notes| == |known| && forall i {:trigger notes[i]} :: 0 <= i < |notes| ==>
              notes[i] == DerivedNote(outputs[i], known[i].leafIndex, NoteCommitment(outputs[i]))
  {
    if known != [] {
      NoAlarmNoLoss(op, outputs, known[..|known| - 1]);
    }
  }

  lemma {:induction false} DerivedSumOf(derived: seq<DerivedNote>, notes: seq<Note>, owner: Owner)
    requires |derived| == |notes| && forall i {:trigger derived[i]} :: 0 <= i < |notes| ==> derived[i].note == notes[i]
    ensures DerivedSum(derived, owner) == SumOf(notes, owner)
  {
    if notes != [] {
      DerivedSumOf(derived[..|notes| - 1], notes[..|notes| - 1], owner);
    }
  }

  /** An alarm-free op records every output. */
  lemma OutputsRecorded(op: OpEnvelope)
    requires WellShaped(op) && op.envelope.Notes? && DeriveOp(op).value.alarms == []
    ensures var derived, outputs := DeriveOp(op).value.outputs, op.envelope.outputs;
            |derived| == |outputs| && forall i {:trigger derived[i]} :: 0 <= i < |outputs| ==>
              derived[i].note == outputs[i] && derived[i].commitment == NoteCommitment(outputs[i])
  {
    if !op.kind.OpDisburse? {
      NoAlarmNoLoss(op, op.envelope.outputs, op.outputLeaves);
    }
  }

  /** The ledger with the op's notes in, before the marks. */
  function Noted(s: State, op: OpEnvelope): State
    requires WellShaped(op) && op.envelope.Notes?
  {
    var d := DeriveOp(op).value;
    RecordAlarms(RecordNotes(TakeKey(s, op.key), d.outputs, op.key.txHash), d.alarms)
  }

  lemma InputsStayOk(s: State, op: OpEnvelope)
    requires Indexed(s) && Bookable(s, op)
    ensures InputsOk(Noted(s, op), op.envelope.inputs)
  {
    var inputs, d := op.envelope.inputs, DeriveOp(op).value;
    var keyed := TakeKey(s, op.key);
    OutputsRecorded(op);
    RecordKeepsFrame(keyed, d.outputs, op.key.txHash);
    forall i | 0 <= i < |inputs|
      ensures InputOk(Noted(s, op), inputs[i])
    {
      assert InputOk(s, inputs[i]);
      RecordKeepsIndex(keyed, d.outputs, op.key.txHash, NoteCommitment(inputs[i]));
    }
  }

  /** Booking an op moves an owner's balance by its notes and the owner's feed by its items. */
  lemma BookingMoves(s: State, op: OpEnvelope, owner: Owner)
    requires Indexed(s) && Bookable(s, op)
    ensures var s' := Apply(s, op).0;
            && Indexed(s')
            && Balance(s'.notes, owner) == Balance(s.notes, owner) + NoteDelta(op, owner)
            && FeedTotal(s'.feed, owner) == FeedTotal(s.feed, owner) + FeedDelta(op, owner)
  {
    hide Apply, DeriveHistory, InputsOk;
    var inputs, noted := op.envelope.inputs, Noted(s, op);
    InputsStayOk(s, op);
    NotedMoves(s, op, owner);
    ApplySteps(s, op);
    MarkKeepsFrame(noted, Commitments(inputs));
    MarkBalance(noted, inputs, owner);
    DraftsExtendFeed(MarkAllSpent(noted, Commitments(inputs)), HistoryOfOp(op), op, owner);
  }

  function HistoryOfOp(op: OpEnvelope): seq<Draft>
    requires WellShaped(op) && op.envelope.Notes?
  {
    DeriveHistory(op.kind, op.envelope.inputs, op.envelope.outputs, op.kind.OpDisburse?)
  }

  lemma ApplySteps(s: State, op: OpEnvelope)
    requires Bookable(s, op)
    ensures Apply(s, op).0
              == RecordDrafts(MarkAllSpent(Noted(s, op), Commitments(op.envelope.inputs)), HistoryOfOp(op), op)
  {
  }

  lemma NotedMoves(s: State, op: OpEnvelope, owner: Owner)
    requires Indexed(s) && Bookable(s, op)
    ensures Indexed(Noted(s, op)) && Noted(s, op).feed == s.feed
    ensures Balance(Noted(s, op).notes, owner) == Balance(s.notes, owner) + SumOf(op.envelope.outputs, owner)
  {
    var d := DeriveOp(op).value;
    OutputsRecorded(op);
    DerivedSumOf(d.outputs, op.envelope.outputs, owner);
    RecordKeepsFrame(TakeKey(s, op.key), d.outputs, op.key.txHash);
    RecordBalance(TakeKey(s, op.key), d.outputs, op.key.txHash, owner);
  }

  ghost predicate Balanced(s: State) {
    forall owner :: FeedTotal(s.feed, owner) == Balance(s.notes, owner)
  }

  /** One op keeps the books balanced if and only if it conserves value. */
  lemma BalancedStaysIff(s: State, op: OpEnvelope)
    requires Indexed(s) && Balanced(s) && Bookable(s, op)
    ensures Balanced(Apply(s, op).0) <==> ValueConserving(op)
  {
    var s' := Apply(s, op).0;
    forall owner
      ensures FeedTotal(s'.feed, owner) == Balance(s'.notes, owner) <==> FeedDelta(op, owner) == NoteDelta(op, owner)
    {
      BookingMoves(s, op, owner);
    }
    EvenForAllIff(op);
  }

  function Run(ops: seq<OpEnvelope>): State
    requires forall i :: 0 <= i < |ops| ==> WellShaped(ops[i])
  {
    if ops == [] then EMPTY else Apply(Run(ops[..|ops| - 1]), ops[|ops| - 1]).0
  }

  ghost predicate GoodRun(ops: seq<OpEnvelope>) {
    && (forall i :: 0 <= i < |ops| ==> WellShaped(ops[i]))
    && (ops == [] ||
        var init, last := ops[..|ops| - 1], ops[|ops| - 1];
        GoodRun(init) && Bookable(Run(init), last) && ValueConserving(last))
  }

  /** Over every run, each owner's feed nets to exactly what the owner can still spend. */
  lemma {:induction false} LedgerConserves(ops: seq<OpEnvelope>)
    requires GoodRun(ops)
    ensures Indexed(Run(ops)) && Balanced(Run(ops))
  {
    if ops != [] {
      var init, last := ops[..|ops| - 1], ops[|ops| - 1];
      LedgerConserves(init);
      BookingMoves(Run(init), last, (0, 0));
      BalancedStaysIff(Run(init), last);
    }
  }
}
