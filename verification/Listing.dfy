/** ledger.ts deriveOp and deriveHistory on the envelope's notes: which of them become notes, alarms and
    activity items, told by their places and not by the loops. */
module Listing {
  import opened Field
  import opened Merkle
  import opened History
  import opened Ledger
  import C = Conservation

  // ---- places ------------------------------------------------------------------------

  ghost predicate Ascends(at: seq<nat>, n: nat) {
    && (forall k :: 0 <= k < |at| ==> at[k] < n)
    && forall k, l :: 0 <= k < l < |at| ==> at[k] < at[l]
  }

  /** The places of the nonzero notes. */
  function Valued(notes: seq<Note>): (at: seq<nat>)
    ensures Ascends(at, |notes|)
    ensures forall i: nat :: i in at <==> i < |notes| && notes[i].value != 0
  {
    if notes == [] then []
    else
      var n := |notes| - 1;
      Valued(notes[..n]) + if notes[n].value != 0 then [n] else []
  }

  /** The places of the nonzero notes that go to somebody else. */
  function Payees(notes: seq<Note>, sender: Owner): (at: seq<nat>)
    ensures Ascends(at, |notes|)
    ensures forall i: nat :: i in at <==> i < |notes| && notes[i].value != 0 && notes[i].owner != sender
  {
    if notes == [] then []
    else
      var n := |notes| - 1;
      Payees(notes[..n], sender) + if notes[n].value != 0 && notes[n].owner != sender then [n] else []
  }

  /** The places of the outputs that reproduce their on-chain leaf, or of those that do not. */
  function Reproducing(outputs: seq<Note>, known: seq<LeafRef>, yes: bool): (at: seq<nat>)
    requires |known| <= |outputs|
    ensures Ascends(at, |known|)
    ensures forall i: nat :: i in at <==> i < |known| && yes == (NoteCommitment(outputs[i]) == known[i].commitment)
  {
    if known == [] then []
    else
      var n := |known| - 1;
      Reproducing(outputs, known[..n], yes)
      + if yes == (NoteCommitment(outputs[n]) == known[n].commitment) then [n] else []
  }

  /** Both totals are additive, hence the plain sums of the values. */
  lemma {:induction false} SumsAdd(a: seq<Note>, b: seq<Note>, n: Note, owner: Owner)
    ensures Sum(a + b) == Sum(a) + Sum(b) && SumOf(a + b, owner) == SumOf(a, owner) + SumOf(b, owner)
    ensures Sum([n]) == n.value && SumOf([n], owner) == if n.owner == owner then n.value else 0
  {
    assert [n][..0] == [];
    if b == [] {
      assert a + b == a;
    } else {
      assert (a + b)[..|a + b| - 1] == a + b[..|b| - 1];
      SumsAdd(a, b[..|b| - 1], n, owner);
    }
  }

  // ---- what each kind of op lists ----------------------------------------------------

  /** One deposit per nonzero output, for its owner, in order. */
  ghost predicate DepositListed(outputs: seq<Note>, out: seq<Draft>) {
    var at := Valued(outputs);
    && |out| == |at|
    && forall k {:trigger at[k]} :: 0 <= k < |at| ==>
         out[k] == Draft(outputs[at[k]].owner, Deposit, None, outputs[at[k]].value)
  }

  /** One received from the payer per payee, in order, and one sent to nobody in particular over what
      the payer did not keep. */
  ghost predicate PayrollListed(outputs: seq<Note>, payer: Owner, out: seq<Draft>) {
    var at := Payees(outputs, payer);
    var paid := Sum(outputs) - SumOf(outputs, payer);
    && |out| == |at| + (if paid > 0 then 1 else 0)
    && (forall k {:trigger at[k]} :: 0 <= k < |at| ==>
          out[k] == Draft(outputs[at[k]].owner, Received, Some(payer), outputs[at[k]].value))
    && (paid > 0 ==> out[|at|] == Draft(payer, Sent, None, paid))
  }

  /** One withdraw over what the inputs hold past the change, if they do. */
  ghost predicate WithdrawalListed(inputs: seq<Note>, outputs: seq<Note>, out: seq<Draft>)
    requires inputs != []
  {
    if Sum(inputs) > Sum(outputs) then
      out == [Draft(inputs[0].owner, Withdraw, None, Sum(inputs) - Sum(outputs))]
    else out == []
  }

  /** Each payee in order: received from the sender, then the sender's sent to the payee. With no payee
      but some value, the sender's sent and received over the first nonzero output. */
  ghost predicate TransferListed(outputs: seq<Note>, sender: Owner, out: seq<Draft>) {
    var at, valued := Payees(outputs, sender), Valued(outputs);
    if at == [] && valued != [] then
      var amount := outputs[valued[0]].value;
      out == [Draft(sender, Sent, Some(sender), amount), Draft(sender, Received, Some(sender), amount)]
    else
      && |out| == 2 * |at|
      && forall k {:trigger at[k]} :: 0 <= k < |at| ==>
           && out[2 * k] == Draft(outputs[at[k]].owner, Received, Some(sender), outputs[at[k]].value)
           && out[2 * k + 1] == Draft(sender, Sent, Some(outputs[at[k]].owner), outputs[at[k]].value)
  }

  ghost predicate Listed(kind: OpKind, inputs: seq<Note>, outputs: seq<Note>, crossChecked: bool, out: seq<Draft>)
    requires !kind.OpDeposit? ==> inputs != []
  {
    match kind
    case OpDeposit => DepositListed(outputs, out)
    case OpDisburse => if crossChecked then PayrollListed(outputs, inputs[0].owner, out) else out == []
    case OpWithdraw => WithdrawalListed(inputs, outputs, out)
    case OpTransfer => TransferListed(outputs, inputs[0].owner, out)
    case OpTransfer10 => TransferListed(outputs, inputs[0].owner, out)
    case OpTransfer10x2 => TransferListed(outputs, inputs[0].owner, out)
  }

  lemma {:induction false} DepositsAreListed(outputs: seq<Note>)
    ensures DepositListed(outputs, DepositDrafts(outputs))
  {
    if outputs != [] {
      DepositsAreListed(outputs[..|outputs| - 1]);
    }
  }

  lemma {:induction false} ReceivedAreListed(outputs: seq<Note>, payer: Owner)
    ensures var at, out := Payees(outputs, payer), ReceivedDrafts(outputs, payer);
            && |out| == |at|
            && forall k {:trigger at[k]} :: 0 <= k < |at| ==>
                 out[k] == Draft(outputs[at[k]].owner, Received, Some(payer), outputs[at[k]].value)
  {
    if outputs != [] {
      ReceivedAreListed(outputs[..|outputs| - 1], payer);
    }
  }

  lemma {:induction false} TransfersAreListed(outputs: seq<Note>, sender: Owner)
    ensures var at, out := Payees(outputs, sender), TransferDrafts(outputs, sender);
            && |out| == 2 * |at|
            && forall k {:trigger at[k]} :: 0 <= k < |at| ==>
                 && out[2 * k] == Draft(outputs[at[k]].owner, Received, Some(sender), outputs[at[k]].value)
                 && out[2 * k + 1] == Draft(sender, Sent, Some(outputs[at[k]].owner), outputs[at[k]].value)
  {
    if outputs != [] {
      TransfersAreListed(outputs[..|outputs| - 1], sender);
    }
  }

  lemma {:induction false} NonzeroAreValued(notes: seq<Note>)
    ensures |Nonzero(notes)| == |Valued(notes)|
    ensures forall k {:trigger Nonzero(notes)[k]} :: 0 <= k < |Nonzero(notes)| ==>
              Nonzero(notes)[k] == notes[Valued(notes)[k]]
  {
    if notes != [] {
      NonzeroAreValued(notes[..|notes| - 1]);
    }
  }

  /** A pure self-send pays somebody, and nobody else. */
  lemma PureSelfSendIff(outputs: seq<Note>, sender: Owner)
    ensures PureSelfSend(outputs, sender) <==> Payees(outputs, sender) == [] && Valued(outputs) != []
  {
    hide Nonzero, Valued, Payees;
    NonzeroAreValued(outputs);
    var nonzero, valued, at := Nonzero(outputs), Valued(outputs), Payees(outputs, sender);
    if at == [] {
      forall k | 0 <= k < |nonzero|
        ensures nonzero[k].owner == sender
      {
        assert valued[k] in valued && valued[k] !in at;
      }
    } else {
      assert at[0] in at && at[0] in valued;
      var k :| 0 <= k < |valued| && valued[k] == at[0];
      assert nonzero[k] == outputs[at[0]];
    }
  }

  /** deriveHistory lists, per kind, exactly those items of the envelope's notes, each once, in order. */
  lemma HistoryListed(kind: OpKind, inputs: seq<Note>, outputs: seq<Note>, crossChecked: bool)
    requires !kind.OpDeposit? ==> inputs != []
    ensures Listed(kind, inputs, outputs, crossChecked, DeriveHistory(kind, inputs, outputs, crossChecked))
  {
    hide DepositDrafts, ReceivedDrafts, TransferDrafts, Sum, SumOf, Paid, Nonzero, Valued, Payees, PureSelfSend;
    DepositsAreListed(outputs);
    if !kind.OpDeposit? {
      var sender := inputs[0].owner;
      ReceivedAreListed(outputs, sender);
      TransfersAreListed(outputs, sender);
      NonzeroAreValued(outputs);
      PureSelfSendIff(outputs, sender);
      C.PaidPlusKept(outputs, sender);
    }
  }

  // ---- deriveOp ----------------------------------------------------------------------

  /** Exactly the outputs that reproduce their leaf become notes, each of the others an alarm over what it
      hashes to and what the chain has. */
  ghost predicate Checked(op: OpEnvelope, outputs: seq<Note>, recorded: seq<DerivedNote>, alarms: seq<Alarm>)
    requires |op.outputLeaves| <= |outputs|
  {
    var known := op.outputLeaves;
    var good, bad := Reproducing(outputs, known, true), Reproducing(outputs, known, false);
    && |recorded| == |good|
    && (forall k {:trigger good[k]} :: 0 <= k < |good| ==>
          recorded[k] == DerivedNote(outputs[good[k]], known[good[k]].leafIndex, known[good[k]].commitment))
    && |alarms| == |bad|
    && forall k {:trigger bad[k]} :: 0 <= k < |bad| ==>
         alarms[k] == Alarm(op.kind, op.key.txHash, OutputAt(bad[k], known[bad[k]].leafIndex),
                            NoteCommitment(outputs[bad[k]]), known[bad[k]].commitment)
  }

  lemma {:induction false} GoodOutputs(outputs: seq<Note>, known: seq<LeafRef>)
    requires |known| <= |outputs|
    ensures var good, recorded := Reproducing(outputs, known, true), CheckedNotes(outputs, known);
            && |recorded| == |good|
            && forall k {:trigger good[k]} :: 0 <= k < |good| ==>
                 recorded[k] == DerivedNote(outputs[good[k]], known[good[k]].leafIndex, known[good[k]].commitment)
  {
    if known != [] {
      GoodOutputs(outputs, known[..|known| - 1]);
    }
  }

  lemma {:induction false} BadOutputs(op: OpEnvelope, outputs: seq<Note>, known: seq<LeafRef>)
    requires |known| <= |outputs|
    ensures var bad, alarms := Reproducing(outputs, known, false), CheckAlarms(op, outputs, known);
            && |alarms| == |bad|
            && forall k {:trigger bad[k]} :: 0 <= k < |bad| ==>
                 alarms[k] == Alarm(op.kind, op.key.txHash, OutputAt(bad[k], known[bad[k]].leafIndex),
                                    NoteCommitment(outputs[bad[k]]), known[bad[k]].commitment)
  {
    if known != [] {
      BadOutputs(op, outputs, known[..|known| - 1]);
    }
  }

  lemma OutputsAreChecked(op: OpEnvelope, outputs: seq<Note>)
    requires |op.outputLeaves| <= |outputs|
    ensures Checked(op, outputs, CheckedNotes(outputs, op.outputLeaves), CheckAlarms(op, outputs, op.outputLeaves))
  {
    hide CheckedNotes, CheckAlarms, Reproducing;
    GoodOutputs(outputs, op.outputLeaves);
    BadOutputs(op, outputs, op.outputLeaves);
  }

  /** A batch whose outputs fold to its root: all of them, at consecutive leaves, and the block's run. */
  ghost predicate BatchOpened(op: OpEnvelope, d: Derived)
    requires WellShaped(op) && op.envelope.Notes? && op.kind.OpDisburse?
  {
    var inputs, outputs := op.envelope.inputs, op.envelope.outputs;
    && d.alarms == [] && |d.outputs| == |outputs|
    && (forall i {:trigger d.outputs[i]} :: 0 <= i < |outputs| ==>
          d.outputs[i] == DerivedNote(outputs[i], op.batchStart + i, NoteCommitment(outputs[i])))
    && d.batchFill.Some? && |d.batchFill.value| == |outputs|
    && (forall i {:trigger d.batchFill.value[i]} :: 0 <= i < |outputs| ==>
          d.batchFill.value[i] == NoteCommitment(outputs[i]))
    && PayrollListed(outputs, inputs[0].owner, d.history)
  }

  /** What an opened envelope means. Its inputs are spent whether or not its outputs check out. */
  ghost predicate Opened(op: OpEnvelope, d: Derived)
    requires WellShaped(op) && op.envelope.Notes?
  {
    var inputs, outputs := op.envelope.inputs, op.envelope.outputs;
    && |d.spent| == |inputs|
    && (forall i {:trigger d.spent[i]} :: 0 <= i < |inputs| ==> d.spent[i] == NoteCommitment(inputs[i]))
    && if op.kind.OpDisburse? then
         var fold := FoldRun(LOG_B, Commitments(outputs));
         if fold == op.batchRoot then BatchOpened(op, d)
         else
           && d.outputs == [] && d.batchFill.None? && d.history == []
           && d.alarms == [Alarm(OpDisburse, op.key.txHash, BatchFold(op.batchStart), fold, op.batchRoot)]
       else
         && Checked(op, outputs, d.outputs, d.alarms) && d.batchFill.None?
         && Listed(op.kind, inputs, outputs, false, d.history)
  }

  /** A rejected KEM leaves one alarm and nothing else; only a missing key throws. */
  ghost predicate Derives(op: OpEnvelope, r: Option<Derived>)
    requires WellShaped(op)
  {
    match op.envelope
    case NoKemKey => r.None?
    case KemRejected(detail, recomputed, expected) =>
      && r.Some? && r.value.alarms == [Alarm(op.kind, op.key.txHash, detail, recomputed, expected)]
      && r.value.outputs == [] && r.value.spent == [] && r.value.batchFill.None? && r.value.history == []
    case Notes(_, _) => r.Some? && Opened(op, r.value)
  }

  lemma SmallOpOpens(op: OpEnvelope)
    requires WellShaped(op) && op.envelope.Notes? && !op.kind.OpDisburse?
    ensures DeriveOp(op).Some? && Opened(op, DeriveOp(op).value)
  {
    hide CheckedNotes, CheckAlarms, DeriveHistory, FoldRun, Checked, Listed;
    HistoryListed(op.kind, op.envelope.inputs, op.envelope.outputs, false);
    OutputsAreChecked(op, op.envelope.outputs);
  }

  lemma BatchHistory(kind: OpKind, inputs: seq<Note>, outputs: seq<Note>)
    requires kind.OpDisburse? && inputs != []
    ensures PayrollListed(outputs, inputs[0].owner, DeriveHistory(kind, inputs, outputs, true))
    ensures DeriveHistory(kind, inputs, outputs, false) == []
  {
    hide DeriveHistory, PayrollListed;
    HistoryListed(kind, inputs, outputs, true);
    HistoryListed(kind, inputs, outputs, false);
  }

  lemma BatchOpens(op: OpEnvelope)
    requires WellShaped(op) && op.envelope.Notes? && op.kind.OpDisburse?
    ensures DeriveOp(op).Some? && Opened(op, DeriveOp(op).value)
  {
    hide DeriveHistory, FoldRun, PayrollListed, Checked, Listed, Commitments, BatchNotes;
    BatchHistory(op.kind, op.envelope.inputs, op.envelope.outputs);
  }

  lemma OpDerives(op: OpEnvelope)
    requires WellShaped(op)
    ensures Derives(op, DeriveOp(op))
  {
    hide Opened, WellShaped, DeriveHistory, CheckedNotes, CheckAlarms;
    if op.envelope.Notes? {
      if op.kind.OpDisburse? {
        BatchOpens(op);
      } else {
        SmallOpOpens(op);
      }
    } else {
      NothingOpens(op);
    }
  }

  lemma NothingOpens(op: OpEnvelope)
    requires WellShaped(op) && !op.envelope.Notes?
    ensures Derives(op, DeriveOp(op))
  {
    hide Opened;
  }
}
