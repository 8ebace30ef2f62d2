/** prover/prover_service/witness.py WitnessHost: header lines and payloads off a pipe that chunks its
    bytes any way it likes. */
module Witness {
  import opened Field

  newtype Byte = b: int | 0 <= b < 256

  const NEWLINE: Byte := 10
  const FIELD_ELEM_BYTES: nat := 32
  const STDERR_RING_BYTES: nat := 65536
  const STDOUT_READ: nat := 1048576
  const STDERR_READ: nat := 65536

  /** What a header line says; Unreadable is json.loads raising. */
  datatype Header = Unreadable | Refused | Answer(nbytes: Option<int>)

  /** The worker's first line: unreadable, not ready, or its two counts (anything but an int is 0). */
  datatype Hello = NoHello | NotReady | Counts(witnessSize: int, numInputs: int)

  /** Nothing is assumed of the JSON parser. */
  const PARSE: seq<Byte> -> Header
  const PARSE_HELLO: seq<Byte> -> Hello

  /** "assertion failed" */
  const ASSERT_SIGNATURE: seq<Byte>

  function Parse(line: seq<Byte>): Header {
    PARSE(line)
  }

  function ParseHello(line: seq<Byte>): Hello {
    PARSE_HELLO(line)
  }

  // ---- lines -------------------------------------------------------------------------

  /** Where the first newline ends, or None. */
  function LineEnd(s: seq<Byte>): (r: Option<nat>)
    ensures r.Some? ==> 0 < r.value <= |s| && s[r.value - 1] == NEWLINE && forall i :: 0 <= i < r.value - 1 ==>
              s[i] != NEWLINE
    ensures r.None? ==> forall i :: 0 <= i < |s| ==> s[i] != NEWLINE
  {
    if s == [] then None
    else if s[0] == NEWLINE then Some(1)
    else
      var rest := LineEnd(s[1..]);
      if rest.None? then None else Some(rest.value + 1)
  }

  /** The next line of a stream, newline included. */
  function NextLine(s: seq<Byte>): seq<Byte> {
    if LineEnd(s).Some? then s[..LineEnd(s).value] else s
  }

  /** What comes after a line end does not move it. */
  lemma {:induction false} LineEndOfPrefix(s: seq<Byte>, more: seq<Byte>)
    requires LineEnd(s).Some?
    ensures LineEnd(s + more) == LineEnd(s)
  {
    if s[0] != NEWLINE {
      assert (s + more)[1..] == s[1..] + more;
      LineEndOfPrefix(s[1..], more);
    }
  }

  // ---- the stderr ring ---------------------------------------------------------------

  /** The end of `s`, `n` long or all of it. */
  function Last(s: seq<Byte>, n: nat): (r: seq<Byte>)
    ensures |r| == if |s| <= n then |s| else n
    ensures forall i {:trigger r[i]} :: 0 <= i < |r| ==> r[i] == s[|s| - |r| + i]
  {
    if |s| <= n then s else s[|s| - n..]
  }

  /** Trimming as one goes keeps what trimming at the end would keep. */
  lemma LastOfLast(a: seq<Byte>, b: seq<Byte>, n: nat)
    ensures Last(Last(a, n) + b, n) == Last(a + b, n)
  {
    hide Last;
    var x, y := Last(Last(a, n) + b, n), Last(a + b, n);
    assert |x| == |y|;
    forall i | 0 <= i < |x|
      ensures x[i] == y[i]
    {
      TrimmedByte(a, b, n, i);
    }
  }

  lemma TrimmedByte(a: seq<Byte>, b: seq<Byte>, n: nat, i: nat)
    requires i < |Last(a + b, n)| == |Last(Last(a, n) + b, n)|
    ensures Last(Last(a, n) + b, n)[i] == Last(a + b, n)[i]
  {
    hide Last;
    var kept, at := Last(a, n), |a + b| - |Last(a + b, n)| + i;
    assert Last(a + b, n)[i] == (a + b)[at];
    assert Last(kept + b, n)[i] == (kept + b)[at - (|a| - |kept|)];
  }

  datatype Fault = GenerationError | InfraError

  predicate FoundAt(s: seq<Byte>, t: seq<Byte>, i: nat) {
    i + |t| <= |s| && s[i..i + |t|] == t
  }

  predicate Contains(s: seq<Byte>, t: seq<Byte>) {
    exists i :: 0 <= i <= |s| && FoundAt(s, t, i)
  }

  /** classify_worker_death: a circuit assert in what is left of stderr is the client's fault. */
  function ClassifyDeath(stderr: seq<Byte>): (fault: Fault)
    ensures fault.GenerationError? <==> exists i, j :: 0 <= i <= j <= |stderr| && stderr[i..j] == ASSERT_SIGNATURE
  {
    SignatureIsASlice(stderr, ASSERT_SIGNATURE);
    if Contains(stderr, ASSERT_SIGNATURE) then GenerationError else InfraError
  }

  lemma SignatureIsASlice(s: seq<Byte>, t: seq<Byte>)
    ensures Contains(s, t) <==> exists i, j :: 0 <= i <= j <= |s| && s[i..j] == t
  {
    if i, j :| 0 <= i <= j <= |s| && s[i..j] == t {
      assert j == i + |t| && FoundAt(s, t, i);
    }
    if i :| 0 <= i <= |s| && FoundAt(s, t, i) {
      assert s[i..i + |t|] == t;
    }
  }

  /** Where the last 64 KiB of the first `n` bytes of stderr start. */
  function RingStart(n: nat): (r: nat)
    ensures r <= n && n - r <= STDERR_RING_BYTES && (r > 0 ==> n - r == STDERR_RING_BYTES)
  {
    if n <= STDERR_RING_BYTES then 0 else n - STDERR_RING_BYTES
  }

  /** Trimming after each chunk leaves the bytes just read, back to where the ring starts. */
  lemma RingMoves(err: seq<Byte>, a: nat, b: nat)
    requires a <= b <= |err|
    ensures Last(err[RingStart(a)..a] + err[a..b], STDERR_RING_BYTES) == err[RingStart(b)..b]
  {
    hide Last;
    assert err[RingStart(a)..a] + err[a..b] == err[RingStart(a)..b];
    LastOfSlice(err, RingStart(a), b);
  }

  lemma LastOfSlice(err: seq<Byte>, from: nat, b: nat)
    requires from <= RingStart(b) && b <= |err|
    ensures Last(err[from..b], STDERR_RING_BYTES) == err[RingStart(b)..b]
  {
    hide Last;
    var x, y := Last(err[from..b], STDERR_RING_BYTES), err[RingStart(b)..b];
    assert |x| == |y|;
    forall i | 0 <= i < |x|
      ensures x[i] == y[i]
    {
    }
  }

  /** At some moment the last 64 KiB of stderr read held the circuit assert. */
  ghost predicate Asserted(err: seq<Byte>) {
    exists n: nat :: n <= |err| && ClassifyDeath(err[RingStart(n)..n]).GenerationError?
  }

  // ---- the worker's end --------------------------------------------------------------

  /** A worker process: everything it will ever write, and how far it has been read. */
  class Worker {
    const sent: seq<Byte>
    const err: seq<Byte>
    var pos: nat
    var errPos: nat

    constructor (sent: seq<Byte>, err: seq<Byte>)
      ensures this.sent == sent && this.err == err && pos == 0 && errPos == 0
    {
      this.sent, this.err, pos, errPos := sent, err, 0, 0;
    }

    ghost predicate Valid()
      reads this
    {
      pos <= |sent| && errPos <= |err|
    }

    /** os.read on a ready stdout: at least a byte, any number of them, or EOF. */
    method ReadOut() returns (chunk: seq<Byte>)
      requires Valid()
      modifies this`pos
      ensures Valid() && old(pos) <= pos && chunk == sent[old(pos)..pos]
      ensures chunk == [] <==> old(pos) == |sent|
    {
      if pos == |sent| {
        return [];
      }
      var k: nat :| 0 < k <= |sent| - pos && k <= STDOUT_READ;
      chunk := sent[pos..pos + k];
      pos := pos + k;
    }

    method ReadErr() returns (chunk: seq<Byte>)
      requires Valid()
      modifies this`errPos
      ensures Valid() && old(errPos) <= errPos && chunk == err[old(errPos)..errPos]
      ensures chunk == [] <==> old(errPos) == |err|
    {
      if errPos == |err| {
        return [];
      }
      var k: nat :| 0 < k <= |err| - errPos && k <= STDERR_READ;
      chunk := err[errPos..errPos + k];
      errPos := errPos + k;
    }
  }

  // ---- the host ----------------------------------------------------------------------

  datatype Read<T> = Got(value: T) | Failed(fault: Fault)

  datatype Result = Vector(bytes: seq<Byte>) | Raised(fault: Fault) | BadJson

  class WitnessHost {
    var proc: Worker?
    var witnessSize: nat
    var rbuf: seq<Byte>
    var errbuf: seq<Byte>
    var errEof: bool
    /** Everything handed to callers so far. */
    ghost var taken: seq<Byte>

    constructor ()
      ensures Valid() && proc == null
    {
      proc, witnessSize, rbuf, errbuf, errEof, taken := null, 0, [], [], false, [];
    }

    /** The carry buffer is exactly what was read and not yet handed out; the ring is exactly the last
        64 KiB of stderr read. */
    ghost predicate Valid()
      reads this, proc
    {
      if proc == null then rbuf == [] && errbuf == []
      else
        && proc.Valid()
        && taken + rbuf == proc.sent[..proc.pos]
        && errbuf == proc.err[RingStart(proc.errPos)..proc.errPos]
    }

    /** _kill: buffers and process go together. */
    method Kill()
      modifies this
      ensures Valid() && proc == null && witnessSize == old(witnessSize)
    {
      proc, rbuf, errbuf, errEof, taken := null, [], [], false, [];
    }

    /** _drain_stderr_once: the ring ends at the byte read last and reaches back 64 KiB, or to the start. */
    method DrainStderrOnce() returns (more: bool)
      requires Valid() && proc != null
      modifies this`errbuf, this`errEof, proc`errPos
      ensures Valid() && proc.pos == old(proc.pos)
      ensures more <==> old(proc.errPos) < |proc.err|
      ensures old(proc.errPos) <= proc.errPos && (more ==> old(proc.errPos) < proc.errPos)
      ensures |errbuf| == (if proc.errPos <= STDERR_RING_BYTES then proc.errPos else STDERR_RING_BYTES)
      ensures errbuf == proc.err[proc.errPos - |errbuf|..proc.errPos]
    {
      hide Last, RingStart, LineEnd;
      var chunk := proc.ReadErr();
      if chunk == [] {
        errEof := true;
        return false;
      }
      RingMoves(proc.err, old(proc.errPos), proc.errPos);
      errbuf := errbuf + chunk;
      if |errbuf| > STDERR_RING_BYTES {
        errbuf := errbuf[|errbuf| - STDERR_RING_BYTES..];
      }
      more := true;
    }

    /** _death: what was left in the pipe joins the ring before it is classified. The drain has a time
        budget and may stop early. */
    method Death() returns (fault: Fault)
      requires Valid() && proc != null
      modifies this, proc
      ensures Valid() && proc == null && witnessSize == old(witnessSize)
      ensures exists n: nat ::
                && old(proc.errPos) <= n <= |old(proc).err|
                && fault == ClassifyDeath(old(proc).err[RingStart(n)..n])
    {
      if !errEof {
        var more := true;
        while more
          invariant Valid() && proc == old(proc) && old(proc.errPos) <= proc.errPos && witnessSize == old(witnessSize)
          decreases |proc.err| - proc.errPos, more
        {
          var outOfTime: bool := *;
          if outOfTime {
            break;
          }
          more := DrainStderrOnce();
        }
      }
      ghost var n := proc.errPos;
      fault := ClassifyDeath(errbuf);
      Kill();
      assert fault == ClassifyDeath(old(proc).err[RingStart(n)..n]);
    }

    /** _fill: at least one more byte in the carry buffer, or the worker's death, or the deadline.
        `budget` is the time left; every pass of the select loop costs some. */
    method Fill(budget: nat) returns (left: nat, r: Read<()>)
      requires Valid() && proc != null
      modifies this, proc
      ensures Valid() && left <= budget && witnessSize == old(witnessSize)
      ensures r.Got? ==> proc == old(proc) && taken == old(taken) && |rbuf| > |old(rbuf)| && old(rbuf) <= rbuf
      ensures r.Failed? ==> proc == null && (r.fault.GenerationError? ==> Asserted(old(proc).err))
    {
      left := budget;
      while true
        invariant Valid() && proc == old(proc) && proc != null && left <= budget && witnessSize == old(witnessSize)
        invariant taken == old(taken) && rbuf == old(rbuf) && proc.pos == old(proc.pos)
        decreases left
      {
        if left == 0 {
          Kill();
          return left, Failed(InfraError);
        }
        left := left - 1;
        var errReady: bool, outReady: bool := *, *;
        if errReady && !errEof {
          var more := DrainStderrOnce();
        }
        if outReady {
          var chunk := proc.ReadOut();
          if chunk == [] {
            var fault := Death();
            return left, Failed(fault);
          }
          assert proc.sent[..proc.pos] == proc.sent[..old(proc.pos)] + chunk;
          rbuf := rbuf + chunk;
          assert taken + rbuf == taken + old(rbuf) + chunk;
          return left, Got(());
        }
      }
    }

    /** Handing out a prefix of the buffer keeps buffer and pipe in step. */
    method Take(n: nat) returns (out: seq<Byte>)
      requires Valid() && proc != null && n <= |rbuf|
      modifies this`rbuf, this`taken
      ensures Valid() && out == old(rbuf)[..n] && taken == old(taken) + out && rbuf == old(rbuf)[n..]
    {
      out := rbuf[..n];
      assert taken + out + rbuf[n..] == taken + rbuf;
      rbuf, taken := rbuf[n..], taken + out;
    }

    /** _read_line_until: exactly the next line of the stream, however it arrived. */
    method ReadLineUntil(budget: nat) returns (left: nat, r: Read<seq<Byte>>)
      requires Valid() && proc != null
      modifies this, proc
      ensures Valid() && left <= budget && witnessSize == old(witnessSize)
      ensures r.Failed? ==> proc == null && (r.fault.GenerationError? ==> Asserted(old(proc).err))
      ensures r.Got? ==> proc == old(proc) && |old(taken)| <= |proc.sent| && LineEnd(proc.sent[|old(taken)|..]).Some?
      ensures r.Got? ==> r.value == NextLine(proc.sent[|old(taken)|..]) && taken == old(taken) + r.value
    {
      left := budget;
      while LineEnd(rbuf).None?
        invariant Valid() && proc == old(proc) && proc != null && left <= budget && taken == old(taken)
        invariant witnessSize == old(witnessSize)
        decreases |proc.sent| - |rbuf|
      {
        assert |taken + rbuf| <= |proc.sent|;
        var got: Read<()>;
        left, got := Fill(left);
        if got.Failed? {
          return left, Failed(got.fault);
        }
      }
      BufferIsNext();
      LineEndOfPrefix(rbuf, proc.sent[proc.pos..]);
      var line := Take(LineEnd(rbuf).value);
      r := Got(line);
    }

    /** The carry buffer is the head of what is still to come. */
    lemma BufferIsNext()
      requires Valid() && proc != null
      ensures |taken| <= |proc.sent| && proc.sent[|taken|..] == rbuf + proc.sent[proc.pos..]
    {
      var sent, pos := proc.sent, proc.pos;
      assert |taken + rbuf| == pos;
      assert sent == sent[..pos] + sent[pos..];
      assert sent[|taken|..] == (taken + rbuf + sent[pos..])[|taken|..];
    }

    /** _read_exact: exactly the next `n` bytes of the stream, the rest left in place. */
    method ReadExact(n: nat, budget: nat) returns (left: nat, r: Read<seq<Byte>>)
      requires Valid() && proc != null
      modifies this, proc
      ensures Valid() && left <= budget && witnessSize == old(witnessSize)
      ensures r.Failed? ==> proc == null && (r.fault.GenerationError? ==> Asserted(old(proc).err))
      ensures r.Got? ==> proc == old(proc) && |old(taken)| + n <= |proc.sent|
      ensures r.Got? ==> r.value == proc.sent[|old(taken)|..|old(taken)| + n] && taken == old(taken) + r.value
    {
      left := budget;
      while |rbuf| < n
        invariant Valid() && proc == old(proc) && proc != null && left <= budget && taken == old(taken)
        invariant witnessSize == old(witnessSize)
        decreases n - |rbuf|
      {
        var got: Read<()>;
        left, got := Fill(left);
        if got.Failed? {
          return left, Failed(got.fault);
        }
      }
      BufferIsNext();
      assert proc.sent[|taken|..|taken| + n] == proc.sent[|taken|..][..n];
      var out := Take(n);
      r := Got(out);
    }

    /** start: a fresh worker and its handshake. A failed handshake leaves no process behind. */
    method Start(sent: seq<Byte>, err: seq<Byte>, budget: nat) returns (r: Read<()>)
      requires Valid() && proc == null
      modifies this
      ensures Valid()
      ensures r.Failed? ==> proc == null && (r.fault.GenerationError? ==> Asserted(err))
      ensures r.Got? ==>
                && proc != null && fresh(proc) && proc.sent == sent && proc.err == err
                && LineEnd(sent).Some? && taken == NextLine(sent)
                && ParseHello(taken).Counts? && ParseHello(taken).witnessSize == witnessSize > 0
                && ParseHello(taken).numInputs > 0
    {
      proc := new Worker(sent, err);
      taken, errEof := [], false;
      assert proc.sent[..0] == [] && proc.err[..0] == [];
      var left: nat, line: Read<seq<Byte>>;
      left, line := ReadLineUntil(budget);
      if line.Failed? {
        return Failed(line.fault);
      }
      assert sent[0..] == sent && [] + line.value == line.value;
      match ParseHello(line.value) {
        case Counts(w, n) =>
          if w > 0 && n > 0 {
            witnessSize := w;
            return Got(());
          }
        case _ =>
      }
      Kill();
      r := Failed(InfraError);
    }

    /** compute on a live worker: the result and the bytes consumed depend on the stream alone, not on
        how the pipe cut it; a vector of any other length is never returned. */
    method ComputeLive(budget: nat) returns (r: Result)
      requires Valid() && proc != null
      modifies this, proc
      ensures Valid() && witnessSize == old(witnessSize)
      ensures r.Vector? ==> |r.bytes| == FIELD_ELEM_BYTES * witnessSize && proc != null
      ensures proc == null ==> r.Raised? && (r.fault.GenerationError? ==> Asserted(old(proc).err))
      ensures proc != null ==> proc == old(proc) && |old(taken)| <= |proc.sent|
      ensures proc != null ==>
                var s := proc.sent[|old(taken)|..]; var (want, n) := Outcome(s, FIELD_ELEM_BYTES * witnessSize);
                n <= |s| && r == want && taken == old(taken) + s[..n]
    {
      hide LineEnd, Last, Contains, RingStart, Asserted;
      var left: nat, line: Read<seq<Byte>>;
      left, line := ReadLineUntil(budget);
      if line.Failed? {
        return Raised(line.fault);
      }
      ghost var s := proc.sent[|old(taken)|..];
      assert line.value == s[..LineEnd(s).value];
      var want := FIELD_ELEM_BYTES * witnessSize;
      match Parse(line.value) {
        case Unreadable => return BadJson;
        case Refused => return Raised(GenerationError);
        case Answer(nbytes) =>
          if nbytes != Some(want) {
            return Raised(InfraError);
          }
      }
      var body: Read<seq<Byte>>;
      left, body := ReadExact(want, left);
      if body.Failed? {
        return Raised(body.fault);
      }
      Joined(proc.sent, |old(taken)|, LineEnd(s).value, want);
      r := Vector(body.value);
    }

    lemma Joined(sent: seq<Byte>, from: nat, line: nat, more: nat)
      requires from + line + more <= |sent|
      ensures var s := sent[from..];
              && s[..line] + sent[from + line..from + line + more] == s[..line + more]
              && s[line..line + more] == sent[from + line..from + line + more]
    {
    }

    /** What one compute makes of the stream from where `before` bytes of it were taken. */
    ghost predicate Answered(r: Result, before: seq<Byte>)
      reads this, proc
    {
      && proc != null && |before| <= |proc.sent|
      && var s := proc.sent[|before|..]; var (want, n) := Outcome(s, FIELD_ELEM_BYTES * witnessSize);
         n <= |s| && r == want && taken == before + s[..n]
    }

    /** compute: a dead worker is replaced first. A process left alive is the old worker, read on from
        where it was, or the new one, read on from its handshake; either way result and bytes taken are
        those of its stream alone. Nobody left alive, the client is blamed only over an assert on the
        stderr of one of the two. */
    method Compute(respawnSent: seq<Byte>, respawnErr: seq<Byte>, budget: nat) returns (r: Result)
      requires Valid()
      modifies this, proc
      ensures Valid()
      ensures proc == null ==> r.Raised?
      ensures proc == null && r.fault.GenerationError? ==>
                (old(proc) != null && Asserted(old(proc).err)) || Asserted(respawnErr)
      ensures r.Vector? ==> proc != null && |r.bytes| == FIELD_ELEM_BYTES * witnessSize
      ensures proc != null && proc == old(proc) ==> witnessSize == old(witnessSize) && Answered(r, old(taken))
      ensures proc != null && proc != old(proc) ==>
                && fresh(proc) && proc.sent == respawnSent && proc.err == respawnErr
                && LineEnd(respawnSent).Some? && ParseHello(NextLine(respawnSent)).Counts?
                && ParseHello(NextLine(respawnSent)).witnessSize == witnessSize > 0
                && Answered(r, NextLine(respawnSent))
    {
      hide LineEnd, Last, Contains, Outcome, NextLine;
      var dead: bool := *;
      if proc == null || dead {
        Kill();
        var started := Start(respawnSent, respawnErr, budget);
        if started.Failed? {
          return Raised(started.fault);
        }
      }
      var broken: bool := *;
      if broken {
        var fault := Death();
        return Raised(fault);
      }
      r := ComputeLive(budget);
    }
  }

  // ---- message framing ---------------------------------------------------------------

  /** What compute makes of a stream, and how much of it it takes. */
  function Outcome(s: seq<Byte>, want: nat): (r: (Result, nat))
  {
    var end := if LineEnd(s).Some? then LineEnd(s).value else |s|;
    match Parse(NextLine(s))
    case Unreadable => (BadJson, end)
    case Refused => (Raised(GenerationError), end)
    case Answer(nbytes) =>
      if nbytes != Some(want) || |s| < end + want then (Raised(InfraError), end)
      else (Vector(s[end..end + want]), end + want)
  }

  /** Whose fault an answer is: the client's exactly if the worker refused, the service's exactly if it
      announced another length or its stream ends early; the vector is the bytes after the line, and
      only it takes more than the line. */
  lemma OutcomeExact(line: seq<Byte>, rest: seq<Byte>, want: nat)
    requires line != [] && line[|line| - 1] == NEWLINE && forall i :: 0 <= i < |line| - 1 ==> line[i] != NEWLINE
    ensures var (r, n) := Outcome(line + rest, want);
            && (r.BadJson? <==> Parse(line).Unreadable?)
            && (r == Raised(GenerationError) <==> Parse(line).Refused?)
            && (r == Raised(InfraError) <==>
                  Parse(line).Answer? && (Parse(line).nbytes != Some(want) || |rest| < want))
            && (r.Vector? ==> r.bytes == rest[..want] && n == |line| + want)
            && (!r.Vector? ==> n == |line|)
  {
    var s := line + rest;
    assert s[|line| - 1] == NEWLINE;
    assert forall i :: 0 <= i < |line| - 1 ==> s[i] == line[i];
    assert LineEnd(s).Some? && LineEnd(s).value == |line|;
    assert NextLine(s) == line;
    assert |rest| >= want ==> s[|line|..|line| + want] == rest[..want];
  }

  /** One answer of the worker: a header line and the payload it announces. */
  datatype Message = Message(header: seq<Byte>, payload: seq<Byte>)

  ghost predicate Framed(m: Message) {
    && LineEnd(m.header) == Some(|m.header|)
    && match Parse(m.header)
       case Answer(nbytes) => nbytes == Some(|m.payload|) || (m.payload == [] && (nbytes.None? || nbytes.value <= 0))
       case _ => m.payload == []
  }

  function Wire(ms: seq<Message>): seq<Byte>
    decreases |ms|
  {
    if ms == [] then [] else ms[0].header + ms[0].payload + Wire(ms[1..])
  }

  lemma HeaderIsNextLine(m: Message, more: seq<Byte>)
    requires Framed(m)
    ensures LineEnd(m.header + m.payload + more) == Some(|m.header|)
    ensures NextLine(m.header + m.payload + more) == m.header
  {
    LineEndOfPrefix(m.header, m.payload + more);
    assert m.header + m.payload + more == m.header + (m.payload + more);
  }

  /** How much of an answer compute takes: its header, and its payload if of the promised length. */
  lemma AnswerTaken(m: Message, more: seq<Byte>, want: nat)
    requires Framed(m)
    ensures var (r, n) := Outcome(m.header + m.payload + more, want);
            && (Parse(m.header) == Answer(Some(want)) ==> n == |m.header| + |m.payload| && r == Vector(m.payload))
            && (Parse(m.header) != Answer(Some(want)) ==> n == |m.header| && !r.Vector?)
  {
    hide LineEnd;
    HeaderIsNextLine(m, more);
    var s, h := m.header + m.payload + more, |m.header|;
    assert s[h..h + |m.payload|] == m.payload;
  }

  lemma CutAt(header: seq<Byte>, payload: seq<Byte>, more: seq<Byte>)
    ensures (header + payload + more)[|header| + |payload|..] == more
    ensures (header + payload + more)[|header|..] == payload + more
    ensures payload != [] ==> payload + more != more
  {
    assert payload != [] ==> |payload + more| > |more|;
  }

  /** After one answer the stream stands at the next message exactly when the payload was empty or of
      the promised length. A payload of any other length makes compute raise without taking it or
      replacing the worker, and the next compute looks for its header inside it. */
  lemma NextMessageIsIntactIff(ms: seq<Message>, want: nat)
    requires ms != [] && Framed(ms[0])
    ensures var (r, n) := Outcome(Wire(ms), want);
            && n <= |Wire(ms)|
            && (Wire(ms)[n..] == Wire(ms[1..]) <==> ms[0].payload == [] || Parse(ms[0].header) == Answer(Some(want)))
            && (r.Vector? ==> r.bytes == ms[0].payload)
  {
    hide Outcome, LineEnd;
    var m, more := ms[0], Wire(ms[1..]);
    AnswerTaken(m, more, want);
    CutAt(m.header, m.payload, more);
    assert m.payload == [] ==> m.payload + more == more;
  }

  /** A worker that keeps its promise is read message by message, whatever the pipe does. */
  lemma {:induction false} PromisedVectorsAllArrive(ms: seq<Message>, want: nat, k: nat)
    requires k < |ms| && forall i :: 0 <= i < |ms| ==> Framed(ms[i]) && Parse(ms[i].header) == Answer(Some(want))
    ensures Outcome(Wire(ms[k..]), want) == (Vector(ms[k].payload), |ms[k].header| + want)
    ensures Wire(ms[k..])[|ms[k].header| + want..] == Wire(ms[k + 1..])
  {
    assert ms[k..][1..] == ms[k + 1..];
    NextMessageIsIntactIff(ms[k..], want);
    HeaderIsNextLine(ms[k], Wire(ms[k + 1..]));
  }
}
