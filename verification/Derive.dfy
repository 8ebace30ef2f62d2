/** ledger.ts deriveOp and deriveHistory as they run: loops over the envelope's notes. */
module Derive {
  import opened Field
  import opened Merkle
  import opened Imt
  import opened History
  import opened Ledger
  import opened Listing

  lemma PrefixStep<T>(s: seq<T>, i: nat)
    requires i < |s|
    ensures s[..i + 1][..i] == s[..i] && s[..i + 1][i] == s[i]
  {
  }

  /** noteCommitment of each note. */
  method CommitAll(notes: seq<Note>) returns (cs: seq<Felt>)
    ensures cs == Commitments(notes)
  {
    cs := [];
    var i := 0;
    while i < |notes|
      invariant i <= |notes| && cs == Commitments(notes[..i])
    {
      PrefixStep(notes, i);
      cs := cs + [NoteCommitment(notes[i])];
      i := i + 1;
    }
    assert notes[..|notes|] == notes;
  }

  /** Each recovered output must reproduce its on-chain leaf: a note or an alarm. */
  method CheckOutputs(op: OpEnvelope, outputs: seq<Note>) returns (recorded: seq<DerivedNote>, alarms: seq<Alarm>)
    requires |op.outputLeaves| <= |outputs|
    ensures recorded == CheckedNotes(outputs, op.outputLeaves) && alarms == CheckAlarms(op, outputs, op.outputLeaves)
    ensures Checked(op, outputs, recorded, alarms)
  {
    recorded, alarms := [], [];
    var i, known := 0, op.outputLeaves;
    assert known[..0] == [];
    while i < |known|
      invariant i <= |known|
      invariant recorded == CheckedNotes(outputs, known[..i]) && alarms == CheckAlarms(op, outputs, known[..i])
    {
      PrefixStep(known, i);
      var c := NoteCommitment(outputs[i]);
      if c != known[i].commitment {
        alarms := alarms + [Alarm(op.kind, op.key.txHash, OutputAt(i, known[i].leafIndex), c, known[i].commitment)];
      } else {
        recorded := recorded + [DerivedNote(outputs[i], known[i].leafIndex, known[i].commitment)];
      }
      i := i + 1;
    }
    assert known[..|known|] == known;
    OutputsAreChecked(op, outputs);
  }

  /** The B notes of an opened batch. */
  method PlaceBatch(outputs: seq<Note>, commits: seq<Felt>, start: nat) returns (r: seq<DerivedNote>)
    requires commits == Commitments(outputs)
    ensures r == BatchNotes(outputs, start)
  {
    r := [];
    var i := 0;
    while i < |outputs|
      invariant i <= |outputs| && |r| == i
      invariant forall j :: 0 <= j < i ==> r[j] == BatchNotes(outputs, start)[j]
    {
      r := r + [DerivedNote(outputs[i], start + i, commits[i])];
      i := i + 1;
    }
  }

  method ListDeposits(outputs: seq<Note>) returns (out: seq<Draft>)
    ensures out == DepositDrafts(outputs)
  {
    out := [];
    var i := 0;
    while i < |outputs|
      invariant i <= |outputs| && out == DepositDrafts(outputs[..i])
    {
      PrefixStep(outputs, i);
      if outputs[i].value != 0 {
        out := out + [Draft(outputs[i].owner, Deposit, None, outputs[i].value)];
      }
      i := i + 1;
    }
    assert outputs[..|outputs|] == outputs;
  }

  /** One received per payee, and the payer's total, in one pass. */
  method ListPayroll(outputs: seq<Note>, sender: Owner) returns (out: seq<Draft>, paid: nat)
    ensures out == ReceivedDrafts(outputs, sender) && paid == Paid(outputs, sender)
  {
    out, paid := [], 0;
    var i := 0;
    while i < |outputs|
      invariant i <= |outputs| && out == ReceivedDrafts(outputs[..i], sender) && paid == Paid(outputs[..i], sender)
    {
      PrefixStep(outputs, i);
      if PaysOther(outputs[i], sender) {
        out := out + [Draft(outputs[i].owner, Received, Some(sender), outputs[i].value)];
        paid := paid + outputs[i].value;
      }
      i := i + 1;
    }
    assert outputs[..|outputs|] == outputs;
  }

  method ListTransfers(outputs: seq<Note>, sender: Owner) returns (out: seq<Draft>)
    ensures out == TransferDrafts(outputs, sender)
  {
    out := [];
    var i := 0;
    while i < |outputs|
      invariant i <= |outputs| && out == TransferDrafts(outputs[..i], sender)
    {
      PrefixStep(outputs, i);
      if PaysOther(outputs[i], sender) {
        out := out + [Draft(outputs[i].owner, Received, Some(sender), outputs[i].value)];
        out := out + [Draft(sender, Sent, Some(outputs[i].owner), outputs[i].value)];
      }
      i := i + 1;
    }
    assert outputs[..|outputs|] == outputs;
  }

  method Total(notes: seq<Note>) returns (sum: nat)
    ensures sum == Sum(notes)
  {
    sum := 0;
    var i := 0;
    while i < |notes|
      invariant i <= |notes| && sum == Sum(notes[..i])
    {
      PrefixStep(notes, i);
      sum := sum + notes[i].value;
      i := i + 1;
    }
    assert notes[..|notes|] == notes;
  }

  method FilterNonzero(notes: seq<Note>) returns (r: seq<Note>)
    ensures r == Nonzero(notes)
  {
    r := [];
    var i := 0;
    while i < |notes|
      invariant i <= |notes| && r == Nonzero(notes[..i])
    {
      PrefixStep(notes, i);
      if notes[i].value != 0 {
        r := r + [notes[i]];
      }
      i := i + 1;
    }
    assert notes[..|notes|] == notes;
  }

  /** deriveHistory. */
  method HistoryOfOp(kind: OpKind, inputs: seq<Note>, outputs: seq<Note>, crossChecked: bool) returns (out: seq<Draft>)
    requires !kind.OpDeposit? ==> inputs != []
    ensures out == DeriveHistory(kind, inputs, outputs, crossChecked)
    ensures Listed(kind, inputs, outputs, crossChecked, out)
  {
    hide DepositDrafts, ReceivedDrafts, TransferDrafts, Sum, Nonzero, Paid, Listed;
    HistoryListed(kind, inputs, outputs, crossChecked);
    out := [];
    match kind {
      case OpDeposit =>
        out := ListDeposits(outputs);
      case OpDisburse =>
        if !crossChecked {
          return;
        }
        var paid: nat;
        out, paid := ListPayroll(outputs, inputs[0].owner);
        if paid > 0 {
          out := out + [Draft(inputs[0].owner, Sent, None, paid)];
        }
      case OpWithdraw =>
        var inSum: int := Total(inputs);
        var change: int := Total(outputs);
        var withdrawn := inSum - change;
        if withdrawn > 0 {
          out := [Draft(inputs[0].owner, Withdraw, None, withdrawn)];
        }
      case _ =>
        var sender := inputs[0].owner;
        var nonzero := FilterNonzero(outputs);
        if nonzero != [] && forall i :: 0 <= i < |nonzero| ==> nonzero[i].owner == sender {
          out := [Draft(sender, Sent, Some(sender), nonzero[0].value),
                  Draft(sender, Received, Some(sender), nonzero[0].value)];
        } else {
          out := ListTransfers(outputs, sender);
        }
    }
  }

  /** deriveOp, from the parsed envelope on; None is the throw over a missing key. */
  method Open(op: OpEnvelope) returns (r: Option<Derived>)
    requires WellShaped(op)
    ensures r == DeriveOp(op) && Derives(op, r)
  {
    hide CheckedNotes, CheckAlarms, BatchNotes, Commitments, DeriveHistory, FoldRun, Derives;
    OpDerives(op);
    match op.envelope {
      case NoKemKey => r := None;
      case KemRejected(detail, recomputed, expected) =>
        r := Some(Derived([], [], [Alarm(op.kind, op.key.txHash, detail, recomputed, expected)], None, []));
      case Notes(inputs, outputs) =>
        var recorded, alarms, fill, crossChecked := [], [], None, false;
        if op.kind.OpDisburse? {
          var commits := CommitAll(outputs);
          var sub := FoldRun(LOG_B, commits);
          if sub != op.batchRoot {
            alarms := [Alarm(op.kind, op.key.txHash, BatchFold(op.batchStart), sub, op.batchRoot)];
          } else {
            recorded := PlaceBatch(outputs, commits, op.batchStart);
            fill, crossChecked := Some(commits), true;
          }
        } else {
          recorded, alarms := CheckOutputs(op, outputs);
        }
        var spent := CommitAll(inputs);
        var history := HistoryOfOp(op.kind, inputs, outputs, crossChecked);
        r := Some(Derived(recorded, spent, alarms, fill, history));
    }
  }
}
