/** apps/indexer/src/ledger.ts and the recording half of postgres.ts PostgresLedger: what one op's
    opened envelope means for notes, spent marks, alarms and the activity feed. */
module Ledger {
  import opened Field
  import opened Merkle
  import opened Imt
  import opened History
  import opened Chain

  /** An envelope note: field elements, hence never negative. */
  datatype Note = Note(owner: Owner, value: nat, salt: nat)

  /** Nothing is assumed of the note commitment. */
  const NOTE_COMMITMENT: (nat, nat, Owner) -> Felt

  function NoteCommitment(n: Note): Felt {
    NOTE_COMMITMENT(n.value, n.salt, n.owner)
  }

  datatype OpKind = OpDeposit | OpTransfer | OpTransfer10 | OpTransfer10x2 | OpWithdraw | OpDisburse

  /** opArity. */
  function Inputs(kind: OpKind): nat {
    match kind
    case OpDeposit => 0
    case OpTransfer => 2
    case OpTransfer10 => 10
    case OpTransfer10x2 => 10
    case OpWithdraw => 2
    case OpDisburse => 1
  }

  function Outputs(kind: OpKind): nat {
    match kind
    case OpDeposit => 2
    case OpTransfer => 2
    case OpTransfer10 => 10
    case OpTransfer10x2 => 2
    case OpWithdraw => 1
    case OpDisburse => B
  }

  /** An alarm's detail string, by what it pins. */
  datatype Detail =
    | KemDecapsulation(message: string)
    | KemBinding
    | BatchFold(start: nat)
    | OutputAt(i: nat, leafIndex: nat)

  datatype Alarm = Alarm(kind: OpKind, txHash: nat, detail: Detail, recomputed: Felt, expected: Felt)

  /** What the crypto makes of the envelope: the missing-key throw, a KEM rejection, or the notes. */
  datatype Envelope =
    | NoKemKey
    | KemRejected(detail: Detail, recomputed: Felt, expected: Felt)
    | Notes(inputs: seq<Note>, outputs: seq<Note>)

  datatype LeafRef = LeafRef(leafIndex: nat, commitment: Felt)

  datatype OpEnvelope = OpEnvelope(
    kind: OpKind,
    key: Key,
    blockTimestamp: nat,
    envelope: Envelope,
    outputLeaves: seq<LeafRef>,
    batchStart: nat,
    batchRoot: Felt)

  /** parseEnvelope: the arities are the kind's, and one owner holds every input. */
  ghost predicate WellShaped(op: OpEnvelope) {
    op.envelope.Notes? ==>
      && |op.envelope.inputs| == Inputs(op.kind)
      && |op.envelope.outputs| == Outputs(op.kind)
      && (forall i :: 0 <= i < |op.envelope.inputs| ==> op.envelope.inputs[i].owner == op.envelope.inputs[0].owner)
      && (!op.kind.OpDisburse? ==> |op.outputLeaves| == |op.envelope.outputs|)
  }

  datatype DerivedNote = DerivedNote(note: Note, leafIndex: nat, commitment: Felt)

  datatype Draft = Draft(owner: Owner, kind: Kind, counterparty: Option<Owner>, amount: nat)

  datatype Derived = Derived(
    outputs: seq<DerivedNote>,
    spent: seq<Felt>,
    alarms: seq<Alarm>,
    batchFill: Option<seq<Felt>>,
    history: seq<Draft>)

  // ---- deriveHistory -----------------------------------------------------------------

  /** The outputs that pay somebody other than the sender. */
  predicate PaysOther(n: Note, sender: Owner) {
    n.value != 0 && n.owner != sender
  }

  function DepositDrafts(outputs: seq<Note>): seq<Draft> {
    if outputs == [] then []
    else
      var last := outputs[|outputs| - 1];
      DepositDrafts(outputs[..|outputs| - 1])
      + if last.value != 0 then [Draft(last.owner, Deposit, None, last.value)] else []
  }

  function ReceivedDrafts(outputs: seq<Note>, sender: Owner): seq<Draft> {
    if outputs == [] then []
    else
      var last := outputs[|outputs| - 1];
      ReceivedDrafts(outputs[..|outputs| - 1], sender)
      + if PaysOther(last, sender) then [Draft(last.owner, Received, Some(sender), last.value)] else []
  }

  /** A split payment lists every payee: one received and one sent per output. */
  function TransferDrafts(outputs: seq<Note>, sender: Owner): seq<Draft> {
    if outputs == [] then []
    else
      var last := outputs[|outputs| - 1];
      TransferDrafts(outputs[..|outputs| - 1], sender)
      + if PaysOther(last, sender)
        then [Draft(last.owner, Received, Some(sender), last.value), Draft(sender, Sent, Some(last.owner), last.value)]
        else []
  }

  function Sum(notes: seq<Note>): nat {
    if notes == [] then 0 else Sum(notes[..|notes| - 1]) + notes[|notes| - 1].value
  }

  /** What an owner holds among `notes`. */
  function SumOf(notes: seq<Note>, owner: Owner): nat {
    if notes == [] then 0
    else
      var last := notes[|notes| - 1];
      SumOf(notes[..|notes| - 1], owner) + if last.owner == owner then last.value else 0
  }

  function Paid(outputs: seq<Note>, sender: Owner): nat {
    if outputs == [] then 0
    else
      var last := outputs[|outputs| - 1];
      Paid(outputs[..|outputs| - 1], sender) + if PaysOther(last, sender) then last.value else 0
  }

  function Nonzero(notes: seq<Note>): seq<Note> {
    if notes == [] then []
    else
      var last := notes[|notes| - 1];
      Nonzero(notes[..|notes| - 1]) + if last.value != 0 then [last] else []
  }

  predicate PureSelfSend(outputs: seq<Note>, sender: Owner) {
    var nonzero := Nonzero(outputs);
    nonzero != [] && forall i :: 0 <= i < |nonzero| ==> nonzero[i].owner == sender
  }

  function DeriveHistory(kind: OpKind, inputs: seq<Note>, outputs: seq<Note>, crossChecked: bool): seq<Draft>
    requires !kind.OpDeposit? ==> inputs != []
  {
    match kind
    case OpDeposit => DepositDrafts(outputs)
    case OpDisburse =>
      if !crossChecked then []
      else
        var sender := inputs[0].owner;
        var paid := Paid(outputs, sender);
        ReceivedDrafts(outputs, sender) + if paid > 0 then [Draft(sender, Sent, None, paid)] else []
    case OpWithdraw =>
      var withdrawn := Sum(inputs) - Sum(outputs);
      if withdrawn > 0 then [Draft(inputs[0].owner, Withdraw, None, withdrawn)] else []
    case _ =>
      var sender := inputs[0].owner;
      if PureSelfSend(outputs, sender) then
        var amount := Nonzero(outputs)[0].value;
        [Draft(sender, Sent, Some(sender), amount), Draft(sender, Received, Some(sender), amount)]
      else TransferDrafts(outputs, sender)
  }

  // ---- deriveOp ----------------------------------------------------------------------

  function Commitments(notes: seq<Note>): (cs: seq<Felt>)
    ensures |cs| == |notes|
    ensures forall i {:trigger cs[i]} :: 0 <= i < |notes| ==> cs[i] == NoteCommitment(notes[i])
  {
    if notes == [] then [] else Commitments(notes[..|notes| - 1]) + [NoteCommitment(notes[|notes| - 1])]
  }

  /** The recovered batch notes, at consecutive leaves. */
  function BatchNotes(outputs: seq<Note>, start: nat): (r: seq<DerivedNote>)
    ensures |r| == |outputs|
    ensures forall i {:trigger r[i]} :: 0 <= i < |r| ==>
              r[i] == DerivedNote(outputs[i], start + i, NoteCommitment(outputs[i]))
  {
    if outputs == [] then []
    else
      var n := |outputs| - 1;
      BatchNotes(outputs[..n], start) + [DerivedNote(outputs[n], start + n, NoteCommitment(outputs[n]))]
  }

  /** The outputs that reproduce their on-chain leaf; a mismatch is not recorded. */
  function CheckedNotes(outputs: seq<Note>, known: seq<LeafRef>): seq<DerivedNote>
    requires |known| <= |outputs|
  {
    if known == [] then []
    else
      var n := |known| - 1;
      CheckedNotes(outputs, known[..n])
      + if NoteCommitment(outputs[n]) != known[n].commitment then []
        else [DerivedNote(outputs[n], known[n].leafIndex, known[n].commitment)]
  }

  function CheckAlarms(op: OpEnvelope, outputs: seq<Note>, known: seq<LeafRef>): seq<Alarm>
    requires |known| <= |outputs|
  {
    if known == [] then []
    else
      var n := |known| - 1;
      CheckAlarms(op, outputs, known[..n])
      + if NoteCommitment(outputs[n]) == known[n].commitment then []
        else [Alarm(op.kind, op.key.txHash, OutputAt(n, known[n].leafIndex), NoteCommitment(outputs[n]),
                    known[n].commitment)]
  }

  /** None is the throw: an op with KEM material and no key configured. */
  function DeriveOp(op: OpEnvelope): Option<Derived>
    requires WellShaped(op)
  {
    match op.envelope
    case NoKemKey => None
    case KemRejected(detail, recomputed, expected) =>
      Some(Derived([], [], [Alarm(op.kind, op.key.txHash, detail, recomputed, expected)], None, []))
    case Notes(inputs, outputs) =>
      var spent := Commitments(inputs);
      if op.kind.OpDisburse? then
        var commits := Commitments(outputs);
        var sub := FoldRun(LOG_B, commits);
        if sub != op.batchRoot then
          var alarm := Alarm(op.kind, op.key.txHash, BatchFold(op.batchStart), sub, op.batchRoot);
          Some(Derived([], spent, [alarm], None, DeriveHistory(op.kind, inputs, outputs, false)))
        else
          Some(Derived(BatchNotes(outputs, op.batchStart), spent, [], Some(commits),
                       DeriveHistory(op.kind, inputs, outputs, true)))
      else
        Some(Derived(CheckedNotes(outputs, op.outputLeaves), spent, CheckAlarms(op, outputs, op.outputLeaves), None,
                     DeriveHistory(op.kind, inputs, outputs, false)))
  }

  // ---- the recorded ledger -----------------------------------------------------------

  datatype LedgerNote = LedgerNote(note: Note, leafIndex: nat, commitment: Felt, txHash: nat, spent: bool)

  datatype Entry = Entry(owner: Owner, item: Item)

  /** `notes` and `feed` hold every record in apply order; a note's position is its identity, which
      is what byCommitment and the buffers refer to. */
  datatype State = State(
    notes: seq<LedgerNote>,
    byCommitment: map<Felt, nat>,
    feed: seq<Entry>,
    historySeq: nat,
    alarms: seq<Alarm>,
    applied: set<Key>,
    pendingNotes: seq<nat>,
    pendingSpent: seq<Felt>,
    pendingHistory: seq<Entry>,
    pendingAlarms: seq<Alarm>,
    pendingApplied: seq<Key>)

  const EMPTY := State([], map[], [], 0, [], {}, [], [], [], [], [])

  function RecordNote(s: State, o: DerivedNote, txHash: nat): State {
    s.(notes := s.notes + [LedgerNote(o.note, o.leafIndex, o.commitment, txHash, false)],
       byCommitment := s.byCommitment[o.commitment := |s.notes|],
       pendingNotes := s.pendingNotes + [|s.notes|])
  }

  function RecordNotes(s: State, outputs: seq<DerivedNote>, txHash: nat): State {
    if outputs == [] then s
    else RecordNote(RecordNotes(s, outputs[..|outputs| - 1], txHash), outputs[|outputs| - 1], txHash)
  }

  function RecordAlarms(s: State, alarms: seq<Alarm>): State {
    s.(alarms := s.alarms + alarms, pendingAlarms := s.pendingAlarms + alarms)
  }

  /** Mark the note the commitment names, if it is known. */
  function MarkSpent(s: State, c: Felt): State {
    if c in s.byCommitment && s.byCommitment[c] < |s.notes| then
      var k := s.byCommitment[c];
      s.(notes := s.notes[k := s.notes[k].(spent := true)],
         pendingSpent := s.pendingSpent + [s.notes[k].commitment])
    else s
  }

  function MarkAllSpent(s: State, cs: seq<Felt>): State {
    if cs == [] then s else MarkSpent(MarkAllSpent(s, cs[..|cs| - 1]), cs[|cs| - 1])
  }

  function RecordDraft(s: State, d: Draft, op: OpEnvelope): State {
    var item := Item(d.kind, d.counterparty, d.amount, op.key.txHash, op.blockTimestamp, s.historySeq);
    s.(feed := s.feed + [Entry(d.owner, item)],
       historySeq := s.historySeq + 1,
       pendingHistory := s.pendingHistory + [Entry(d.owner, item)])
  }

  function RecordDrafts(s: State, drafts: seq<Draft>, op: OpEnvelope): State {
    if drafts == [] then s
    else RecordDraft(RecordDrafts(s, drafts[..|drafts| - 1], op), drafts[|drafts| - 1], op)
  }

  /** The key is taken before anything can throw. */
  function TakeKey(s: State, key: Key): State {
    s.(applied := s.applied + {key}, pendingApplied := s.pendingApplied + [key])
  }

  function Record(s: State, d: Derived, op: OpEnvelope): State {
    RecordDrafts(MarkAllSpent(RecordAlarms(RecordNotes(s, d.outputs, op.key.txHash), d.alarms), d.spent), d.history, op)
  }

  /** apply(): the new ledger, the run to fill the batch with, and false for a throw. */
  function Apply(s: State, op: OpEnvelope): (State, Option<seq<Felt>>, bool)
    requires WellShaped(op)
  {
    if op.key in s.applied then (s, None, true)
    else
      var keyed := TakeKey(s, op.key);
      match DeriveOp(op)
      case None => (keyed, None, false)
      case Some(d) => (Record(keyed, d, op), d.batchFill, true)
  }
}
